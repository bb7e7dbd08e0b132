# Barista chatbot: tool-calling conversation loop

This project models the core of the barista chatbot in `barrista.py`.

- **The three tools.** `search_items` filters the coffee menu by a case-insensitive substring query. `get_weather` looks a city up in a fixed weather table. `order_item` confirms an order by menu id.
- **The per-turn logic of `main()`.** The interactive loop reads a line and ends the session on `bye` or empty input. Otherwise it:
  1. pops trailing tool outputs off the transcript (`messages`);
  2. appends the user turn;
  3. asks the completion service;
  4. runs every tool request in order, appending a `function_call` / `function_call_output` pair for each;
  5. when there were requests, asks the service exactly once more;
  6. prints the reply, the last tool result or a no-response line;
  7. appends the raw reply as the assistant turn.

The modules:

- `Wrappers`: `Option` and `Result`.
- `Text`: the Python string operations the program uses. These are `lower()` and `strip()`, restricted to ASCII letters and ASCII whitespace, the substring test `in`, which compares any characters exactly, and the decimal rendering of integers.
- `Menu`:
  - `COFFEE_MENU` and `WEATHER_DATA`, with their exact contents;
  - `search_items`, as the imperative loop `SearchItems` proved against the filter function `Select`;
  - `get_weather`, a pure lookup in the source too;
  - `order_item`, which prints its confirmation in the source. The model makes it a function that returns its message together with the lines it prints.
- `Conversation`: the transcript entries and the tool registry `Invoke`, plus the pure specification of one turn (`Turn`, `Exchange`) and of the whole loop (`Run`).
  - The completion service is a parameter, `Gateway`, a function from the transcript sent to the response.
  - The registry is a parameter too, `Tools`, so that the transcript bookkeeping is proved for any registry.
  - Lemmas show what a turn does to the transcript, the console and the list of transcripts sent to the service. They also show that a session which does not crash keeps its transcript *settled*: the system prompt first and only there, every call directly followed by the output with its call id, and the last entry the prompt or an assistant turn.
- `Barista`:
  - The class `Session` holds `messages`, the console and the sent transcripts as fields. Its methods change these fields in place, as `main()` changes its list.
  - The trim is a `while` loop and the dispatch a loop appending two entries per request. Each method is proved to compute exactly the `Conversation` function of the old state.
  - `Chat` is `main()` itself: it creates the session with the barista's own registry `Invoke` and runs it.
  - `InvokeTool` is the `if tool_name == ...` chain, where `search_items` runs its loop. It is proved equal to `Invoke`.
- `Scenarios`: a scripted order of a cappuccino through one whole turn.

The model follows these details of the code:

- The trim before a user turn is a `while` loop (barrista.py:230-231) and removes every trailing tool output.
- After a batch of tool requests, exactly one more completion is requested (barrista.py:264-270), whatever it returns. Tool requests in that second response are not dispatched.
- The assistant entry records the raw reply text (barrista.py:278), even when it is blank and a tool result was printed instead.
- A tool request whose arguments lack the key its tool reads raises and ends the program (barrista.py:244-250), and so does a `query_string` or `city` that is not a string. Nothing catches the exception. The model represents this as a `Crashed` turn.
- The docstring of `search_items` (barrista.py:124) speaks of a word match, but the code tests for a substring (barrista.py:128). The model tests for a substring.

## Model

| member | source | states |
|---|---|---|
| Text.Lower | barrista.py:125 | lower-casing keeps the length and lowers each character on its own |
| Text.LowerIdempotent | barrista.py:125 | lowering twice is lowering once, so the lowered query needs no further lowering |
| Text.LowerHasNoUpper | barrista.py:125 | lowered text holds no upper-case letter |
| Text.LowerOfLowerCase | barrista.py:115-121 | text with no upper-case letter (such as every weather key) is its own lower-casing |
| Text.Strip | barrista.py:226 | `strip()`: the line with its leading and then its trailing whitespace removed (properties in `Text.StripSpec`) |
| Text.TrimStart | barrista.py:226 | the leading strip removes a prefix made only of whitespace, and what remains does not start with whitespace |
| Text.TrimEnd | barrista.py:226 | the trailing strip removes a suffix made only of whitespace, and what remains does not end with whitespace |
| Text.IsBlank | barrista.py:271 | the blank-reply test: the reply is empty or made only of whitespace, which by `Text.StripSpec` is exactly when stripping leaves nothing |
| Text.StripSpec | barrista.py:226-227 | the stripped input is an infix of the line with no whitespace at either end; it is empty exactly when the line is blank |
| Text.StripIdempotent | barrista.py:226 | stripping twice is stripping once |
| Text.Contains | barrista.py:128 | `needle in hay`: the needle is a prefix of the text or occurs in its tail (meaning in `Text.ContainsIff`) |
| Text.ContainsEmpty | barrista.py:128 | the empty string occurs in every text |
| Text.ContainsIff | barrista.py:128 | the substring test holds exactly when the needle occurs at some position of the text |
| Text.ContainsInfix | barrista.py:128 | any infix of a text passes the substring test |
| Text.NatToString | barrista.py:140 | the rendering of an id is a non-empty string of decimal digits with no leading zero; it starts with `0` exactly for zero, so with the round trip it is the one text `str()` writes |
| Text.NatToStringRoundTrip | barrista.py:140 | reading the digits of a rendered natural number back gives the number |
| Text.IntToString | barrista.py:140-144 | Python's `str()` of an integer: its decimal digits, after a minus sign when it is negative |
| Menu.Matches | barrista.py:125-128 | an item matches when its lowered name or its lowered description contains the lowered query |
| Menu.Select | barrista.py:125-130 | the results of the search: the matching items of the menu, in menu order (properties in `Menu.SelectMembers` and `Menu.SelectIsSubsequence`) |
| Menu.SelectMembers | barrista.py:125-130 | an item is in the search results exactly when it is on the menu and its lowered name or description contains the lowered query |
| Menu.SelectIsSubsequence | barrista.py:127-129 | the search results keep menu order: they are a subsequence of the menu |
| Menu.SelectStep | barrista.py:127-129 | looking at one more menu item appends it to the results exactly when it matches, and otherwise leaves them unchanged |
| Menu.SelectEmptyQuery | barrista.py:125-130 | the empty query returns the whole menu |
| Menu.SelectIgnoresCase | barrista.py:125 | two queries equal up to case return the same results |
| Menu.SearchItems | barrista.py:123-130 | the search loop returns exactly the filter of the menu, with the membership characterisation and menu order |
| Menu.GetWeather | barrista.py:132-134 | `get_weather`: the table's record under the lowered city name, or the record with no temperature and "unknown" (properties in `Menu.GetWeatherSpec`) |
| Menu.WeatherKeysReachable | barrista.py:115-121 | every key of the weather table is lower case, so the lookup reaches every record |
| Menu.GetWeatherSpec | barrista.py:132-134 | the lookup depends only on the lowered city name; it gives the table's record when the lowered name is a key and the unknown record exactly when it is not |
| Menu.LondonWeather | barrista.py:115-134 | any spelling of London whose lowering is "london" gives 16 degrees and cloudy |
| Menu.AtlantisWeather | barrista.py:132-134 | any spelling of Atlantis, a city missing from the table, gives the unknown record with no temperature |
| Menu.FirstWithId | barrista.py:138 | the item chosen is the first one whose id equals the argument; there is none exactly when no item has that id |
| Menu.Confirmation | barrista.py:140 | the confirmation text: name, id and price of the item |
| Menu.NotFound | barrista.py:144 | the not-found text, with the id as Python's `str()` shows it |
| Menu.OrderItem | barrista.py:136-144 | `order_item`: the confirmation of the first item with that id, printed once, or the not-found text with nothing printed (properties in `Menu.OrderItemSpec`) |
| Menu.MenuIdsDistinct | barrista.py:47-112 | the menu ids are 1 to 8 in order, so they are pairwise distinct |
| Menu.OrderItemSpec | barrista.py:136-144 | an id on the menu yields that item's confirmation, printed once; any other value yields the not-found text; something is printed exactly when the id is on the menu |
| Menu.OrderCappuccinoExample | barrista.py:136-142 | ordering id 2 confirms the cappuccino at price 3.0 and prints that confirmation |
| Menu.OrderOffMenu | barrista.py:143-144 | an integer id outside 1 to 8 (999, say) yields "Item with id ... not found." with the id in decimal, and prints nothing |
| Menu.OrderStringId | barrista.py:138-144 | an id given as a string, even "2", never equals an integer id, so it is answered with the not-found text and prints nothing |
| Conversation.StringArgument | barrista.py:246-248 | reading a string argument succeeds exactly when the key is present with a string value, gives that value, and reports a missing key as missing |
| Conversation.Invoke | barrista.py:245-252 | the barista's registry: the `if tool_name == ...` chain applied to the request's arguments (properties in `Conversation.InvokeSpec` and `Conversation.InvokeRaises`) |
| Conversation.InvokeSpec | barrista.py:245-252 | each known name runs its tool on its argument: `search_items` the menu filter, `get_weather` the lookup, `order_item` the order with its printed line; an unknown name answers "Unknown tool." and does not raise |
| Conversation.InvokeRaises | barrista.py:245-252 | only `order_item` prints, and a request raises exactly when its tool is known and the argument it reads is missing, or, for `search_items`/`get_weather`, not a string |
| Conversation.Dispatch | barrista.py:242-263 | the dispatch loop as a function of the requests: each successful request appends its call and its output; the first one that raises stops the batch (properties in the `Dispatch*` lemmas) |
| Conversation.DispatchRaises | barrista.py:242-263 | a batch stops with an error exactly when one of its requests raises |
| Conversation.DispatchFirstFailure | barrista.py:242-263 | a batch that raised has a first request that raises: every request before it succeeded, and the batch kept exactly their pairs |
| Conversation.DispatchLast | barrista.py:242-273 | without an error, the tool result left over is the last request's output, and there is none exactly when there were no requests |
| Conversation.DispatchSpec | barrista.py:242-263 | without an error, every request succeeded, n requests append 2n entries, and pair k is request k's call followed by its output under the same call id |
| Conversation.DispatchStep | barrista.py:242-263 | one more request either appends its call/output pair, its printed lines and its output, or stops the batch with its error |
| Conversation.DispatchGrows | barrista.py:242-263 | a request that succeeds after an error-free prefix adds its pair, its printed lines and its output as the new last result |
| Conversation.DispatchFails | barrista.py:244-252 | a request that raises after an error-free prefix ends the whole batch with the prefix's entries and that error |
| Conversation.DispatchStops | barrista.py:244-250 | once a request has raised, none of the later requests of the batch are dispatched |
| Conversation.DispatchPaired | barrista.py:253-263 | a batch appends calls and outputs only, correctly paired, starting with a call and ending with an output, also when it stops part-way |
| Conversation.Trimmed | barrista.py:230-231 | the trim leaves a prefix of the transcript; every removed entry is a tool output; the last entry left is not one |
| Conversation.TrimmedSpec | barrista.py:230-231 | the trim keeps the leading system entry, does nothing when the last entry is not a tool output, and trimming twice is trimming once |
| Conversation.IsQuit | barrista.py:226-227 | the stripped line is `bye` in any case, or empty |
| Conversation.Present | barrista.py:271-277 | the line printed at the end of a turn: the reply when it is not blank, else the tool result when tools ran, else the no-response line |
| Conversation.AsLinesAppend | barrista.py:242-263 | the console lines of two runs of printed text are the lines of the first followed by those of the second |
| Conversation.Turn | barrista.py:226-278 | one pass of the session loop: the farewell on a quitting line, otherwise the exchange on the stripped line |
| Conversation.Exchange | barrista.py:230-278 | the trim, the user turn, the first completion, the dispatch, the follow-up completion when tools ran, the presentation and the assistant entry (properties in the `Turn*` lemmas) |
| Conversation.FinalReply | barrista.py:239-270 | the reply the turn shows and records: the first completion's text, or the follow-up's when tools ran |
| Conversation.TurnQuit | barrista.py:226-229 | the session ends exactly on `bye` in any case or on blank input; it prints the farewell and changes neither the transcript nor what was sent |
| Conversation.ExchangeAnswered | barrista.py:230-278 | an exchange is answered exactly when no request raises; the transcript is then the trimmed one, the user turn, the batch's entries and one assistant entry with the final reply |
| Conversation.TurnAnswered | barrista.py:226-278 | any other input is answered exactly when no tool request raises; the transcript then becomes the trimmed transcript, the stripped user turn, the batch's pairs and one assistant entry, 2n + 2 entries longer than the trimmed one |
| Conversation.TurnSent | barrista.py:233-270 | an answered turn asks the service once with the trimmed transcript and the user turn when there are no requests, and exactly once more with every output appended when there are |
| Conversation.TurnConsole | barrista.py:241-277 | an answered turn prints the tools' lines in order and then exactly one more line |
| Conversation.TurnPresentation | barrista.py:271-277 | an answered turn prints the reply when it is not blank, otherwise the last tool request's output when there were requests, otherwise the no-response line |
| Conversation.TurnCrashed | barrista.py:232-263 | a turn that raises had tool requests, ends with the batch's error, keeps the user turn and the entries of the stopped batch, and asks the service only once |
| Conversation.SettledExtend | barrista.py:232-278 | a settled transcript followed by a user turn, a paired batch of calls and outputs, and an assistant entry is settled again |
| Conversation.TurnKeepsSettled | barrista.py:222-278 | from a settled transcript, an answered turn leaves a settled transcript that extends the old one |
| Conversation.TurnSendsLonger | barrista.py:230-270 | from a settled transcript, an answered turn sends only transcripts longer than all sent before, and leaves the transcript longer than the last one it sent |
| Conversation.TurnCrashSendsLonger | barrista.py:230-250 | a turn that raises sends one transcript, longer than all sent before |
| Conversation.Run | barrista.py:225-278 | the `while True` loop over the typed lines, ending on a quit, a raised tool request or the end of input |
| Conversation.Initial | barrista.py:219-224 | the state `main()` starts from: the welcome line printed, only the system prompt in the transcript, nothing sent |
| Conversation.RunKeepsSettled | barrista.py:225-278 | a session loop that quits or runs out of input keeps a settled transcript and only extends it |
| Conversation.MainKeepsSettled | barrista.py:218-278 | a whole session that does not crash ends with a settled transcript that still starts with the system prompt |
| Conversation.RunSendsLonger | barrista.py:225-278 | along a session from a settled transcript, however it ends, every completion is sent a longer transcript than the one before |
| Conversation.MainSendsLonger | barrista.py:218-278 | in a whole session of `main()`, every completion is sent a longer transcript than the one before |
| Barista.InvokeTool | barrista.py:243-252 | the tool-selection chain, with the search loop, returns exactly what the registry specifies |
| Barista.Session.constructor | barrista.py:219-224 | a new session has printed the welcome line, holds only the system prompt and has sent nothing |
| Barista.Session.TrimTrailingOutputs | barrista.py:230-231 | the pop loop leaves exactly the trimmed transcript, and changes nothing else |
| Barista.Session.Complete | barrista.py:233-239 | a completion records the whole transcript as sent and leaves the transcript and the console unchanged |
| Barista.Session.DispatchCalls | barrista.py:241-263 | the dispatch loop appends exactly the batch's entries, prints exactly its tools' lines, reports its error, and leaves the last output as the tool result |
| Barista.Session.Answer | barrista.py:271-278 | the end of a pass prints exactly the presented line and appends the raw reply as the assistant entry, and sends nothing |
| Barista.Session.Turn | barrista.py:226-278 | one pass of the session loop changes the session exactly as the turn function specifies |
| Barista.Session.Exchange | barrista.py:230-278 | the pass for a non-quitting input changes the session exactly as the exchange function specifies |
| Barista.Session.Run | barrista.py:225-278 | the session loop over the typed lines ends in exactly the state and exit that the run function specifies |
| Barista.Chat | barrista.py:218-278 | `main()` with the barista's registry computes exactly the specified run from the initial transcript |
| Scenarios.OrderScenario | barrista.py:232-278 | for a service that requests one order and then narrates: the turn is answered, the transcript is prompt, user turn, one call with its matching output, then the narration; the confirmation is printed before the answer, and the service is asked twice |
| Scenarios.OrderExchange | barrista.py:232-278 | the same scripted exchange, stated as the whole resulting state: transcript, console and the two transcripts sent |
| Scenarios.OrderBatch | barrista.py:242-263 | the scripted batch of one order request appends one pair, prints the confirmation once and leaves it as the tool result |
| Scenarios.InvokeOrderRequest | barrista.py:249-250 | the barista's registry answers the order request for id 2 with the cappuccino confirmation, printed once |
| Scenarios.OrderScenarioBarista | barrista.py:232-278 | the scripted order turn with the barista's own registry is answered, records the cappuccino confirmation as the call's output and prints it before the narration |

## Left out

- main.py: the HTTP endpoints and the `/barista/*` routes (barrista.py:148-170) are glue around the three tools and are not part of this model.
- The tool schema `barista_tools` and the prompt text are data sent to the service. The prompt is a parameter of the session.
- The completion service, with its network and its failures, is the `Gateway` parameter. It is a total function of the transcript it is sent. A failing request to the service is not modelled.
- `response.output` is taken to hold exactly the tool requests of the response. An item of another kind would make `function_call.arguments` raise in the source; the model does not represent such items. A reply that carries text arrives in `response.output` as such a non-call item, and barrista.py:244 raises on it, so the model's "no requests" branch stands only for an empty `response.output`.
- Parsing the JSON `arguments` text is not modelled: a request carries its parsed payload. Only string and integer values are represented, so a malformed payload and Python's `True == 1` or `2.0 == 2` comparisons in `order_item` are not represented.
- Python's `str()` of a tool result (a list or dict rendered as text) is kept as the structured `ToolOutput`. The console line for a tool result is `ToolResult(output)`, not the rendered text.
- Prices are kept as the text Python prints for each float ("2.5", "3.0", ...), not as floating-point numbers.
- Text.Lower, Text.Strip: only ASCII letters are lower-cased and only ASCII whitespace is stripped. Python's Unicode case mapping and its non-ASCII whitespace are not modelled.
- The prompt `You: ` that `input()` writes before each line (barrista.py:226) is not recorded: the console holds only the lines the program prints.
- Reading a line is the next element of the sequence of typed lines. When it runs out, the session ends with `EndOfInput`, which stands for the `EOFError` that ends the program.
- Barista.Session: the session is parametric in its tool registry and calls it as a function; `Chat` passes `Invoke`. The methods of the session therefore do not call `InvokeTool` and its search loop; `InvokeTool` is proved equal to `Invoke` separately.
