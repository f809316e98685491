/**
 * The tool-calling side of the airline assistant: the transcript's message
 * shapes, the dispatcher that runs one tool call against the remembered
 * destination, and the chat turn that assembles the transcript around the
 * hosted model's replies.
 */
module ToolDispatch {
  import opened Wrappers
  import opened PyText
  import opened Handlers

  const PriceToolName: string := "get_ticket_price"
  const BookingToolName: string := "book_flight_tickets"
  const DestinationToolName: string := "get_valid_destination"

  /** The finish reason with which the hosted model asks for tool calls. */
  const ToolCallsReason: string := "tool_calls"

  /** The three tools the assistant declares to the hosted model. */
  datatype Tool = PriceLookup | Booking | DestinationCheck

  function ToolName(t: Tool): string
  {
    match t
    case PriceLookup => PriceToolName
    case Booking => BookingToolName
    case DestinationCheck => DestinationToolName
  }

  /** The tool a call's name selects, if any. */
  function ParseToolName(name: string): (t: Option<Tool>)
    ensures t == None <==> name !in {PriceToolName, BookingToolName, DestinationToolName}
    ensures t != None ==> ToolName(t.value) == name
  {
    if name == PriceToolName then Some(PriceLookup)
    else if name == BookingToolName then Some(Booking)
    else if name == DestinationToolName then Some(DestinationCheck)
    else None
  }

  /** Every tool is selected by its own name, and by no other tool's. */
  lemma ToolNameRoundTrip(t: Tool)
    ensures ParseToolName(ToolName(t)) == Some(t)
  {
  }

  /** The decoded argument object of a tool call; a field the model left out is `None`. */
  datatype Arguments = Arguments(destinationCity: Option<string>, ticketCount: Option<int>, customerName: Option<string>)

  /** A tool call as the hosted model issues it: an opaque id, a tool name and its arguments. */
  datatype ToolCall = ToolCall(id: string, name: string, arguments: Arguments)

  /** The content of a tool result. */
  datatype Content =
    | NoContent                               // Python None
    | Text(text: string)
    | PriceQuote(city: string, price: string) // the object {"destination_city": ..., "price": ...}

  /** An entry of the transcript. */
  datatype Message =
    | SystemMessage(text: string)
    | UserMessage(text: string)
    | AssistantMessage(assistantText: Option<string>, toolCalls: seq<ToolCall>)
    | ToolMessage(content: Content, toolCallId: string)
    | NoneMessage                             // the None a call to an unknown tool yields

  /** What running one tool call produced: a value, or an exception that ends the chat turn. */
  datatype Outcome = Returned(message: Message) | Raised

  /** The remembered destination after a tool call, and that call's outcome. */
  datatype Dispatched = Dispatched(session: Option<string>, outcome: Outcome)

  /** Python's `a or b` for two values that are strings or None. */
  function PyOr(a: Option<string>, b: Option<string>): (r: Option<string>)
    ensures a in {None, Some("")} ==> r == b
    ensures a !in {None, Some("")} ==> r == a
  {
    if a != None && a.value != "" then a else b
  }

  /** A call that raises: a price lookup or destination check without a city (`None.lower()`). */
  predicate RaisesOn(call: ToolCall)
  {
    ParseToolName(call.name) in {Some(PriceLookup), Some(DestinationCheck)} &&
    call.arguments.destinationCity == None
  }

  /** The remembered destination after `call`: a price lookup's city, otherwise unchanged. */
  function NextSession(session: Option<string>, call: ToolCall): Option<string>
  {
    if ParseToolName(call.name) == Some(PriceLookup) then call.arguments.destinationCity else session
  }

  /** `message` is the result the dispatcher gives for `call`. */
  predicate Answers(call: ToolCall, message: Message)
  {
    if ParseToolName(call.name) == None then message == NoneMessage
    else message.ToolMessage? && message.toolCallId == call.id
  }

  /** The destination a booking call books: its own when non-empty, else the remembered one. */
  function BookingDestination(call: ToolCall, session: Option<string>): Option<string>
  {
    PyOr(call.arguments.destinationCity, session)
  }

  /**
   * `handle_tool_call` as a function of the remembered destination: selects
   * the handler by tool name, gives its result back tagged with the call's
   * id, and remembers the city of a price lookup.
   */
  function Dispatch(session: Option<string>, call: ToolCall): (d: Dispatched)
    ensures d.session == NextSession(session, call)
    ensures d.outcome == Raised <==> RaisesOn(call)
    ensures d.outcome != Raised ==> Answers(call, d.outcome.message)
  {
    var args := call.arguments;
    match ParseToolName(call.name)
    case Some(PriceLookup) =>
      (match args.destinationCity
       case None => Dispatched(None, Raised)
       case Some(city) =>
         Dispatched(Some(city), Returned(ToolMessage(PriceQuote(city, GetTicketPrice(city)), call.id))))
    case Some(Booking) =>
      var reply := BookFlightTickets(args.ticketCount, args.customerName, BookingDestination(call, session));
      Dispatched(session, Returned(ToolMessage(Text(reply), call.id)))
    case Some(DestinationCheck) =>
      (match args.destinationCity
       case None => Dispatched(session, Raised)
       case Some(city) =>
         var content := match GetValidDestination(city)
                        case None => NoContent
                        case Some(m) => Text(m);
         Dispatched(session, Returned(ToolMessage(content, call.id))))
    case None => Dispatched(session, Returned(NoneMessage))
  }

  /** A price lookup answers with the city it was asked about and that city's price. */
  lemma PriceLookupQuotes(session: Option<string>, call: ToolCall, city: string)
    requires ParseToolName(call.name) == Some(PriceLookup) && call.arguments.destinationCity == Some(city)
    ensures Dispatch(session, call) ==
      Dispatched(Some(city), Returned(ToolMessage(PriceQuote(city, GetTicketPrice(city)), call.id)))
  {
  }

  /**
   * A booking call leaves the remembered destination alone and books the
   * call's own destination when it is a non-empty string, otherwise the
   * remembered one (which may be `None`).
   */
  lemma BookingFallsBack(session: Option<string>, call: ToolCall)
    requires ParseToolName(call.name) == Some(Booking)
    ensures var dest := if call.arguments.destinationCity in {None, Some("")}
                        then session else call.arguments.destinationCity;
      Dispatch(session, call) == Dispatched(session, Returned(ToolMessage(
        Text(BookFlightTickets(call.arguments.ticketCount, call.arguments.customerName, dest)), call.id)))
  {
  }

  /** A destination check answers with no content exactly for a supported city. */
  lemma DestinationCheckAnswers(session: Option<string>, call: ToolCall, city: string)
    requires ParseToolName(call.name) == Some(DestinationCheck) && call.arguments.destinationCity == Some(city)
    ensures Dispatch(session, call).session == session
    ensures Dispatch(session, call).outcome.Returned?
    ensures var m := Dispatch(session, call).outcome.message;
      m.ToolMessage? && (m.content == NoContent <==> Lower(city) in TicketPrices)
  {
  }

  // ---------------------------------------------------------------------
  // A reply's tool calls, run one after another

  /** The remembered destination after the calls run so far, their results, and whether one raised. */
  datatype Run = Run(session: Option<string>, results: seq<Message>, raised: bool)

  /** Runs one more call after `before`, unless an earlier call has raised. */
  function Step(before: Run, call: ToolCall): (after: Run)
    ensures before.raised ==> after == before
    ensures !before.raised ==> after.session == NextSession(before.session, call)
    ensures !before.raised ==> (after.raised <==> RaisesOn(call))
    ensures !before.raised && RaisesOn(call) ==> after.results == before.results
    ensures !before.raised && !RaisesOn(call) ==>
      |after.results| == |before.results| + 1 && after.results[..|before.results|] == before.results &&
      Answers(call, after.results[|before.results|])
  {
    if before.raised then before
    else
      var d := Dispatch(before.session, call);
      match d.outcome
      case Raised => Run(d.session, before.results, true)
      case Returned(m) => Run(d.session, before.results + [m], false)
  }

  /** The result a step adds is the dispatcher's answer to its call. */
  lemma StepDispatches(before: Run, call: ToolCall)
    requires !before.raised && !RaisesOn(call)
    ensures Dispatch(before.session, call).outcome == Returned(Step(before, call).results[|before.results|])
  {
  }

  /** Runs the calls in order against the remembered destination; stops at the first that raises. */
  function RunCalls(session: Option<string>, calls: seq<ToolCall>): (run: Run)
    ensures run.raised ==> |run.results| < |calls|
    ensures !run.raised ==> |run.results| == |calls|
    decreases |calls|
  {
    if calls == [] then Run(session, [], false)
    else Step(RunCalls(session, calls[..|calls| - 1]), calls[|calls| - 1])
  }

  lemma PrefixExtends(calls: seq<ToolCall>, i: nat)
    requires i <= |calls|
    ensures i < |calls| ==> calls[..i + 1] == calls[..i] + [calls[i]]
    ensures i == |calls| ==> calls[..i] == calls
  {
  }

  lemma RunCallsLast(session: Option<string>, calls: seq<ToolCall>, call: ToolCall)
    ensures RunCalls(session, calls + [call]) == Step(RunCalls(session, calls), call)
  {
    assert (calls + [call])[..|calls|] == calls;
  }

  /**
   * Running more calls only appends results: a prefix's results stay, in
   * order, and once a call has raised nothing after it runs.
   */
  lemma {:induction false} RunExtends(session: Option<string>, calls: seq<ToolCall>, k: nat)
    requires k <= |calls|
    ensures var prefix := RunCalls(session, calls[..k]);
      var run := RunCalls(session, calls);
      |prefix.results| <= |run.results| && run.results[..|prefix.results|] == prefix.results &&
      (prefix.raised ==> run == prefix)
    decreases |calls|
  {
    if k == |calls| {
      assert calls[..k] == calls;
    } else {
      var init := calls[..|calls| - 1];
      var before := RunCalls(session, init);
      assert RunCalls(session, calls) == Step(before, calls[|calls| - 1]);
      assert init[..k] == calls[..k];
      RunExtends(session, init, k);
    }
  }

  /** Once a call has raised, running more calls changes nothing. */
  lemma RaisedRunStops(session: Option<string>, calls: seq<ToolCall>, k: nat)
    requires k <= |calls| && RunCalls(session, calls[..k]).raised
    ensures RunCalls(session, calls) == RunCalls(session, calls[..k])
  {
    RunExtends(session, calls, k);
  }

  /**
   * The `i`th result is what the dispatcher gives for the `i`th call against
   * the destination the calls before it left behind.
   */
  lemma RunDispatchesInOrder(session: Option<string>, calls: seq<ToolCall>, i: nat)
    requires i < |RunCalls(session, calls).results|
    ensures !RunCalls(session, calls[..i]).raised
    ensures Dispatch(RunCalls(session, calls[..i]).session, calls[i]).outcome ==
      Returned(RunCalls(session, calls).results[i])
  {
    var run := RunCalls(session, calls);
    var before := RunCalls(session, calls[..i]);
    RunExtends(session, calls, i);
    PrefixExtends(calls, i);
    RunCallsLast(session, calls[..i], calls[i]);
    var after := RunCalls(session, calls[..i + 1]);
    assert after == Step(before, calls[i]);
    RunExtends(session, calls, i + 1);
    assert !RaisesOn(calls[i]);
    StepDispatches(before, calls[i]);
    assert run.results[..|after.results|][i] == after.results[i];
  }

  /** Each call that ran got exactly one result, answering it: same id, or None for an unknown tool. */
  lemma RunAnswersEachCall(session: Option<string>, calls: seq<ToolCall>)
    ensures var run := RunCalls(session, calls);
      forall i :: 0 <= i < |run.results| ==> Answers(calls[i], run.results[i])
  {
    var run := RunCalls(session, calls);
    forall i | 0 <= i < |run.results| ensures Answers(calls[i], run.results[i]) {
      RunDispatchesInOrder(session, calls, i);
    }
  }

  /** A run that raised stopped at the call right after its last result, and that call raises. */
  lemma {:induction false} RunStopsAtRaisingCall(session: Option<string>, calls: seq<ToolCall>)
    requires RunCalls(session, calls).raised
    ensures RaisesOn(calls[|RunCalls(session, calls).results|])
    decreases |calls|
  {
    var init := calls[..|calls| - 1];
    var before := RunCalls(session, init);
    assert RunCalls(session, calls) == Step(before, calls[|calls| - 1]);
    if before.raised {
      RunStopsAtRaisingCall(session, init);
      assert init[|before.results|] == calls[|before.results|];
    }
  }

  /** Reference definition: the city of the last price lookup among `calls`, else `session`. */
  function LastPriceCity(session: Option<string>, calls: seq<ToolCall>): Option<string>
    decreases |calls|
  {
    if calls == [] then session
    else
      var next := if ParseToolName(calls[0].name) == Some(PriceLookup)
                  then calls[0].arguments.destinationCity else session;
      LastPriceCity(next, calls[1..])
  }

  lemma {:induction false} LastPriceCityLast(session: Option<string>, calls: seq<ToolCall>)
    requires calls != []
    ensures LastPriceCity(session, calls) ==
      var last := calls[|calls| - 1];
      if ParseToolName(last.name) == Some(PriceLookup) then last.arguments.destinationCity
      else LastPriceCity(session, calls[..|calls| - 1])
    decreases |calls|
  {
    if |calls| > 1 {
      var next := if ParseToolName(calls[0].name) == Some(PriceLookup)
                  then calls[0].arguments.destinationCity else session;
      LastPriceCityLast(next, calls[1..]);
      assert calls[1..][..|calls| - 2] == calls[..|calls| - 1][1..];
    }
  }

  /**
   * After a run in which no call raised, the remembered destination is the
   * city of the last price lookup among the calls, or the one before the run.
   */
  lemma {:induction false} RunRemembersLastPriceCity(session: Option<string>, calls: seq<ToolCall>)
    requires !RunCalls(session, calls).raised
    ensures RunCalls(session, calls).session == LastPriceCity(session, calls)
    decreases |calls|
  {
    if calls != [] {
      var init := calls[..|calls| - 1];
      var last := calls[|calls| - 1];
      var before := RunCalls(session, init);
      assert RunCalls(session, calls) == Step(before, last);
      RunRemembersLastPriceCity(session, init);
      LastPriceCityLast(session, calls);
    }
  }

  /**
   * A booking call without a destination of its own books the city of the
   * most recent price lookup before it in the same reply, or the destination
   * remembered from earlier turns when there was none.
   */
  lemma BookingUsesLastPriceCity(session: Option<string>, calls: seq<ToolCall>, i: nat)
    requires i < |RunCalls(session, calls).results|
    requires ParseToolName(calls[i].name) == Some(Booking)
    requires calls[i].arguments.destinationCity in {None, Some("")}
    ensures RunCalls(session, calls).results[i] == ToolMessage(Text(BookFlightTickets(
      calls[i].arguments.ticketCount, calls[i].arguments.customerName,
      LastPriceCity(session, calls[..i]))), calls[i].id)
  {
    RunDispatchesInOrder(session, calls, i);
    RunRemembersLastPriceCity(session, calls[..i]);
  }

  // ---------------------------------------------------------------------
  // The chat turn

  /** One reply of the hosted model: its finish reason, its text and the tool calls it asks for. */
  datatype Reply = Reply(finishReason: string, content: Option<string>, toolCalls: seq<ToolCall>)

  /** The answer a chat turn gives back, or the exception a tool call raised. */
  datatype ChatResult = Answered(content: Option<string>) | Failed

  /** The transcript sent first: the system instruction, the history, then the new user turn. */
  function Opening(systemPrompt: string, history: seq<Message>, message: string): (t: seq<Message>)
    ensures |t| == |history| + 2
    ensures t[0] == SystemMessage(systemPrompt) && t[|t| - 1] == UserMessage(message)
    ensures t[1..|t| - 1] == history
  {
    [SystemMessage(systemPrompt)] + history + [UserMessage(message)]
  }

  /**
   * The process that serves the chat: its system instruction and the one
   * destination it remembers across tool calls and chat turns.
   */
  class BookingAssistant {
    const systemPrompt: string
    var destinationCity: Option<string>

    constructor(systemPrompt: string)
      ensures this.systemPrompt == systemPrompt && destinationCity == None
    {
      this.systemPrompt := systemPrompt;
      destinationCity := None;
    }

    /** `handle_tool_call`: runs one tool call, updating the remembered destination. */
    method HandleToolCall(call: ToolCall) returns (outcome: Outcome)
      modifies this
      ensures Dispatched(destinationCity, outcome) == Dispatch(old(destinationCity), call)
    {
      var args := call.arguments;
      if call.name == PriceToolName {
        var city := args.destinationCity;
        destinationCity := city;
        if city == None {
          outcome := Raised;
        } else {
          var price := GetTicketPrice(city.value);
          outcome := Returned(ToolMessage(PriceQuote(city.value, price), call.id));
        }
      } else if call.name == BookingToolName {
        var destination := PyOr(args.destinationCity, destinationCity);
        var reply := BookFlightTickets(args.ticketCount, args.customerName, destination);
        outcome := Returned(ToolMessage(Text(reply), call.id));
      } else if call.name == DestinationToolName {
        if args.destinationCity == None {
          outcome := Raised;
        } else {
          var reply := GetValidDestination(args.destinationCity.value);
          var content := if reply == None then NoContent else Text(reply.value);
          outcome := Returned(ToolMessage(content, call.id));
        }
      } else {
        outcome := Returned(NoneMessage);
      }
    }

    /**
     * `chat`: sends the opening transcript with the tools declared; on a
     * tool-call reply appends that reply and one result per call, in order,
     * and sends the transcript again without tools.  `complete` stands for
     * the hosted model; its second argument says whether tools are declared.
     */
    method Chat(message: string, history: seq<Message>, complete: (seq<Message>, bool) -> Reply)
      returns (answer: ChatResult, messages: seq<Message>)
      modifies this
      ensures var opening := Opening(systemPrompt, history, message);
        |opening| <= |messages| && messages[..|opening|] == opening
      ensures var opening := Opening(systemPrompt, history, message);
        var first := complete(opening, true);
        if first.finishReason != ToolCallsReason then
          answer == Answered(first.content) && messages == opening &&
          destinationCity == old(destinationCity)
        else
          var run := RunCalls(old(destinationCity), first.toolCalls);
          destinationCity == run.session &&
          if run.raised then answer == Failed
          else
            messages == opening + [AssistantMessage(first.content, first.toolCalls)] + run.results &&
            answer == Answered(complete(messages, false).content)
    {
      messages := Opening(systemPrompt, history, message);
      ghost var opening := messages;
      var first := complete(messages, true);
      if first.finishReason == ToolCallsReason {
        messages := messages + [AssistantMessage(first.content, first.toolCalls)];
        ghost var base := messages;
        ghost var start := destinationCity;
        ghost var run := Run(start, [], false);
        var calls := first.toolCalls;
        var i := 0;
        while i < |calls|
          invariant 0 <= i <= |calls|
          invariant run == RunCalls(start, calls[..i])
          invariant !run.raised && destinationCity == run.session
          invariant messages == base + run.results
        {
          PrefixExtends(calls, i);
          RunCallsLast(start, calls[..i], calls[i]);
          var outcome := HandleToolCall(calls[i]);
          run := Step(run, calls[i]);
          if outcome == Raised {
            RaisedRunStops(start, calls, i + 1);
            answer := Failed;
            return;
          }
          messages := messages + [outcome.message];
          i := i + 1;
        }
        PrefixExtends(calls, i);
        var second := complete(messages, false);
        answer := Answered(second.content);
      } else {
        answer := Answered(first.content);
      }
    }
  }
}
