# Airline booking assistant: local tool layer

This project models, in Dafny, the local logic of the airline booking assistant
(`airline_assistant.py`). A hosted language model drives the conversation. It may
ask the assistant to run one of three local tools:

- `get_ticket_price`: the price of a return ticket to a city, looked up case-insensitively in a fixed registry;
- `get_valid_destination`: nothing for a supported city, otherwise a message listing every supported city;
- `book_flight_tickets`: asks for the ticket count, then for the customer's name, then confirms the booking.

The dispatcher `handle_tool_call` picks the tool by its name. It keeps one slot
of process-wide state, the remembered destination. A price lookup writes that
slot. A booking call that names no destination (or an empty one) books the
remembered destination instead. The `chat` turn builds the transcript from the
system instruction, the history and the user's message. When the model asks for
tools, `chat` appends the model's reply and then one result per tool call, in
order, and asks the model again.

Modules:

- `Wrappers` (`wrappers.dfy`): the `Option` type for Python's value-or-`None`.
- `PyText` (`pytext.dfy`): the Python text behaviour the tools rely on. This covers `str.lower()`, `str(int)` in an f-string, and the `repr` of a list of strings in an f-string. Each rendering comes with its inverse parser and a round-trip lemma.
- `Handlers` (`handlers.dfy`): the registry `TicketPrices`, its key order `Destinations`, and the three handlers as pure functions.
- `ToolDispatch` (`dispatch.dfy`): tool calls and transcript messages as datatypes, and `Dispatch`, the dispatcher as a function of the remembered destination. `RunCalls` runs a reply's calls in order. The class `BookingAssistant` holds the remembered destination in a mutable field. Its methods `HandleToolCall` and `Chat` are proved against `Dispatch` and `RunCalls`.
- `Scenarios` (`scenarios.dfy`): worked conversations (Berlin's price, Madrid rejected, a booking that falls back to the city of an earlier price lookup).

Behaviour the model keeps from the code:

- A call to an unknown tool name makes `handle_tool_call` return `None`. `chat` still appends that `None` to the transcript (airline_assistant.py:150-151). So the transcript gets one entry per call, and the entry for an unknown tool is `NoneMessage`.
- Only a price lookup writes the remembered destination (airline_assistant.py:168). A booking call reads it but never writes it.
- The price lookup stores the city before it looks the price up (airline_assistant.py:168-169). A price lookup without a city therefore sets the remembered destination to `None` and then raises when it calls `.lower()` on `None`. The model keeps this order.
- A booking when no city is known at all confirms with the text `None` for the destination (`FormatOptional`), because the f-string prints `None`.

## Model

| member | source | states |
|---|---|---|
| PyText.Lower | airline_assistant.py:42 | `lower()` keeps the length and lower-cases each character, one by one: ASCII capitals and the Kelvin sign (which becomes `k`) |
| PyText.LowerOfCasing | airline_assistant.py:42 | lower-casing any upper/lower spelling of a lower-case string gives that string back, the Kelvin sign standing for `k` included |
| PyText.IntToDecimalRoundTrip | airline_assistant.py:66 | the decimal text an f-string prints for any int, negative ones included, parses back to that int |
| PyText.ListReprRoundTrip | airline_assistant.py:50 | the printed list of quote-free strings parses back to the same list: every item, once, in order |
| PyText.QuotedItemOffset | airline_assistant.py:50 | the printed list items contain each item, in quotes, at the offset given |
| PyText.ListReprMentions | airline_assistant.py:50 | the printed list contains each of its items in quotes |
| Handlers.DestinationsAreTheKeys | airline_assistant.py:48 | the listed destinations are exactly the registry's keys, with no repeats |
| Handlers.DestinationsArePlain | airline_assistant.py:36 | the registry keys are plain lower-case text, printed by `repr` between single quotes |
| Handlers.PricesAreKnown | airline_assistant.py:36-43 | no configured price equals the `"Unknown"` sentinel, so that answer always means "not in the registry" |
| Handlers.GetTicketPrice | airline_assistant.py:40-43 | the answer is `"Unknown"` exactly when the lower-cased city is not a registry key; otherwise it is that key's price |
| Handlers.PriceIgnoresCase | airline_assistant.py:36-43 | every registry city gets exactly its configured price, whatever letters of it are upper-cased |
| Handlers.PriceDependsOnlyOnLowerCase | airline_assistant.py:42-43 | two spellings that lower-case alike get the same answer |
| Handlers.GetValidDestination | airline_assistant.py:46-50 | the answer is `None` exactly when the lower-cased city is a registry key; otherwise it is the select-destination message |
| Handlers.RejectionListsDestinations | airline_assistant.py:46-50 | a rejection starts with "please select destination from " and its list parses back to exactly the registry keys, each once |
| Handlers.RejectionMentionsEveryKey | airline_assistant.py:48-50 | a rejection mentions every registry key, in quotes |
| Handlers.BookFlightTickets | airline_assistant.py:53-67 | count prompt exactly when the count is missing, even with no name; name prompt exactly when only the name is missing; otherwise the confirmation for any count and any name |
| Handlers.ConfirmationCarriesDetails | airline_assistant.py:66 | the confirmation is the count, which reads back as the count, then " tickets for ", the destination, " booked for " and the customer's name, each verbatim |
| Handlers.ConfirmationIsNoPrompt | airline_assistant.py:58-67 | no confirmation, for any count, can be mistaken for either prompt |
| ToolDispatch.ParseToolName | airline_assistant.py:166-186 | exactly the three tool names select a tool, and the tool selected has that name |
| ToolDispatch.ToolNameRoundTrip | airline_assistant.py:166-186 | each tool is selected by its own name |
| ToolDispatch.PyOr | airline_assistant.py:176 | Python `a or b`: `b` when `a` is `None` or empty, `a` otherwise |
| ToolDispatch.Dispatch | airline_assistant.py:159-193 | only a price lookup changes the remembered destination, to its argument city; a call raises exactly when a price lookup or destination check has no city; every other result answers its call: a tool result with the caller's id, or `None` for an unknown name |
| ToolDispatch.PriceLookupQuotes | airline_assistant.py:166-174 | a price lookup remembers its city and answers with that city, its price and the caller's id |
| ToolDispatch.BookingFallsBack | airline_assistant.py:175-185 | a booking leaves the remembered destination alone and books its own destination when non-empty, else the remembered one |
| ToolDispatch.DestinationCheckAnswers | airline_assistant.py:186-193 | a destination check leaves the remembered destination alone and answers with no content exactly for a supported city |
| ToolDispatch.Step | airline_assistant.py:149-151 | one more call adds exactly one result that answers it, or stops the run when the call raises |
| ToolDispatch.StepDispatches | airline_assistant.py:150-151 | the result a step adds is the dispatcher's result for that call |
| ToolDispatch.RunCalls | airline_assistant.py:149-151 | a run with no raise has one result per call; a run that raised has fewer results than calls |
| ToolDispatch.RunAnswersEachCall | airline_assistant.py:149-151 | the `i`th result answers the `i`th call (same id, or `None` for an unknown tool) |
| ToolDispatch.RunStopsAtRaisingCall | airline_assistant.py:149-151 | when a run raised, the call right after the last result is one that raises |
| ToolDispatch.RunExtends | airline_assistant.py:147-151 | running more calls only appends: earlier results stay unchanged and in order, and nothing runs after a raise |
| ToolDispatch.RaisedRunStops | airline_assistant.py:149-151 | once a call has raised, later calls change nothing |
| ToolDispatch.RunDispatchesInOrder | airline_assistant.py:149-151 | the `i`th result is the dispatcher's answer to the `i`th call against the destination the earlier calls left |
| ToolDispatch.RunRemembersLastPriceCity | airline_assistant.py:164-168 | after a run with no raise, the remembered destination is the city of the last price lookup, or the earlier one if there was none |
| ToolDispatch.BookingUsesLastPriceCity | airline_assistant.py:168-176 | a booking without its own destination books the city of the latest earlier price lookup, else the destination remembered before the run |
| ToolDispatch.Opening | airline_assistant.py:140 | the first transcript is the system turn, then the history unchanged, then the user's turn |
| ToolDispatch.BookingAssistant.constructor | airline_assistant.py:37 | the remembered destination starts as `None` |
| ToolDispatch.BookingAssistant.HandleToolCall | airline_assistant.py:159-193 | the new remembered destination and the outcome are those `Dispatch` gives for the old destination |
| ToolDispatch.BookingAssistant.Chat | airline_assistant.py:135-156 | the transcript starts with the opening; without tool calls the first reply's text is the answer and nothing changes; with tool calls, the transcript is the opening, then the reply, then the run's results, the destination is the run's, and the second reply's text is the answer, unless a call raised |
| Scenarios.MadridIsRejected | airline_assistant.py:46-50 | "Madrid" is rejected with a list that reads back as london, paris, tokyo, berlin |
| Scenarios.BerlinPrice | airline_assistant.py:36-43 | "Berlin" costs "$499" |
| Scenarios.KelvinSignSpellsTokyo | airline_assistant.py:40-50 | "TO\u212AYO", written with the Kelvin sign, costs "$1400" and is accepted as a destination, as Python's `lower()` reads it |
| Scenarios.ThreeTicketsForSam | airline_assistant.py:66 | three tickets to Berlin for Sam confirm as "3 tickets for Berlin booked for Sam" |
| Scenarios.PriceThenBooking | airline_assistant.py:159-185 | a Berlin price lookup then a booking without a city quotes $499 and books Berlin |

## Left out

- The hosted model's API calls (airline_assistant.py:141, 154) are foreign network calls. `Chat` takes the model as a function parameter `complete`. Its boolean argument says whether the tools are declared.
- The Gradio chat interface and its launch (airline_assistant.py:196) are UI plumbing.
- Loading `.env`, reading the API key and every `print` are environment I/O and logging.
- JSON decoding of tool arguments and JSON encoding of the price result (airline_assistant.py:165, 172) are not modelled. Arguments are a record of optional fields, and the price result is the structured value `PriceQuote(city, price)`.
- `int(ticket_count)` (airline_assistant.py:61) is not modelled. The count is taken as an optional integer, so a count that does not parse is outside the model.
- The wording of the system instruction and the tool schemas (airline_assistant.py:25-33, 70-132) are constant data for the hosted model. The instruction is a constructor parameter of `BookingAssistant`.
- `llm_tutor.py` only concatenates lists and calls the hosted model. It is not part of this model.
- Two browser sessions racing on the process-wide remembered destination are not modelled. The model covers one conversation's calls, run one after another.
- PyText.Lower: lower-cases ASCII capitals and the Kelvin sign only, and keeps the length. Python's `lower()` also folds other non-ASCII letters, and for a few of them (such as U+0130) it changes the length. For each of those other letters, Python's lower case still contains a character outside ASCII. So those spellings match no registry key in Python or in the model, and price lookups and destination checks agree with the program. Only the text of the lowered string differs.
- PyText.ListReprRoundTrip: holds for items without single quotes. Python's `repr` escapes or re-quotes other strings, and the registry's keys have no quotes.
- ToolDispatch.RunRemembersLastPriceCity: stated for runs in which no call raised. When a call raises, `chat` ends with that exception.
- ToolDispatch.BookingAssistant.Chat: when a tool call raises, it states only that the chat fails and the destination reached. The transcript is then discarded with the exception, so its contents are not stated.
- Scenarios.MadridIsRejected: states the rejection's list as it reads back, not the message as one literal string.
