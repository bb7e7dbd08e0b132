/**
 * The per-turn transcript logic of the interactive barista session, as pure
 * functions of the state before the turn: the transcript (`messages`), what
 * was printed on the console, and what was sent to the completion service.
 * The imperative session in module Barista is proved to compute exactly these.
 */
module Conversation {
  import opened Wrappers
  import opened Text
  import opened Menu

  // ------------------------------------------------------------ data model

  /** The parsed argument payload of a tool request: key to JSON string or integer. */
  type Arguments = map<string, Value>

  /** One tool request of a completion: the tool's name, its arguments and the id its result must carry. */
  datatype Request = Request(name: string, arguments: Arguments, callId: string)

  /** A completion: its output text (possibly empty) and the tool requests it carries. */
  datatype Response = Response(outputText: string, calls: seq<Request>)

  /** What a tool returned, before Python's `str()` turns it into text. */
  datatype ToolOutput =
    | Listing(items: seq<MenuItem>)
    | Report(weather: Weather)
    | Message(text: string)

  /** One entry of the transcript (`messages`). */
  datatype Entry =
    | System(content: string)
    | User(content: string)
    | Assistant(content: string)
    | FunctionCall(name: string, arguments: Arguments, callId: string)
    | FunctionCallOutput(callId: string, output: ToolOutput)

  /**
   * The completion service, seen as a function of the transcript it is sent.
   * Any fixed script of stubbed responses is such a function, since every
   * call in a session is sent a longer transcript than the one before
   * (`MainSendsLonger`).
   */
  type Gateway = seq<Entry> -> Response

  /** A line of console output; `ToolResult(o)` is the line that shows a tool result after a blank reply. */
  datatype Printed = Line(text: string) | ToolResult(output: ToolOutput)

  const WELCOME := "Welcome to the Barista Chatbot! Type 'bye' to exit."
  const FAREWELL := "Barista: Goodbye! Have a great day!"
  const NO_RESPONSE := "Barista: (No response from model)"
  const UNKNOWN_TOOL := "Unknown tool."

  /**
   * The exceptions a tool request can raise after its payload is parsed:
   * a missing key (`KeyError`) or a non-string where `.lower()` is applied
   * (`AttributeError`). Either one ends the program.
   */
  datatype ArgError = MissingArgument(key: string) | NotAString(key: string)

  // ----------------------------------------------------------------- tools

  /** What one tool invocation returns, and the lines it prints. */
  datatype Invocation = Invocation(output: ToolOutput, printed: seq<string>)

  /**
   * A tool registry: what invoking a request does. The barista's registry is
   * `Invoke`; the transcript bookkeeping below is stated for any registry.
   */
  type Tools = Request -> Result<Invocation, ArgError>

  /** `args[key]` where the tool applies `.lower()` to it: the missing key and a non-string both raise. */
  function StringArgument(args: Arguments, key: string): (r: Result<string, ArgError>)
    ensures r.Success? <==> key in args && args[key].Str?
    ensures r.Success? ==> r.value == args[key].s
    ensures r.Failure? && key !in args ==> r.error == MissingArgument(key)
  {
    if key !in args then Failure(MissingArgument(key))
    else match args[key]
      case Str(s) => Success(s)
      case Int(_) => Failure(NotAString(key))
  }

  /** The tool chosen by name, applied to its argument; any other name yields `"Unknown tool."`. */
  function Invoke(r: Request): Result<Invocation, ArgError>
  {
    if r.name == "search_items" then
      match StringArgument(r.arguments, "query_string")
      case Success(q) => Success(Invocation(Listing(Select(COFFEE_MENU, q)), []))
      case Failure(e) => Failure(e)
    else if r.name == "get_weather" then
      match StringArgument(r.arguments, "city")
      case Success(c) => Success(Invocation(Report(GetWeather(c)), []))
      case Failure(e) => Failure(e)
    else if r.name == "order_item" then
      if "item_id" !in r.arguments then Failure(MissingArgument("item_id"))
      else
        var receipt := OrderItem(r.arguments["item_id"]);
        Success(Invocation(Message(receipt.message), receipt.printed))
    else Success(Invocation(Message(UNKNOWN_TOOL), []))
  }

  predicate IsKnownTool(name: string)
  {
    name == "search_items" || name == "get_weather" || name == "order_item"
  }

  /**
   * The tool reached by each name, applied to its argument; a name other
   * than the three known ones always answers `"Unknown tool."`.
   */
  lemma InvokeSpec(r: Request)
    ensures r.name == "order_item" && "item_id" in r.arguments ==>
      Invoke(r) == Success(Invocation(Message(OrderItem(r.arguments["item_id"]).message), OrderItem(r.arguments["item_id"]).printed))
    ensures !IsKnownTool(r.name) ==> Invoke(r) == Success(Invocation(Message(UNKNOWN_TOOL), []))
    ensures r.name == "search_items" && StringArgument(r.arguments, "query_string").Success? ==>
      Invoke(r) == Success(Invocation(Listing(Select(COFFEE_MENU, StringArgument(r.arguments, "query_string").value)), []))
    ensures r.name == "get_weather" && StringArgument(r.arguments, "city").Success? ==>
      Invoke(r) == Success(Invocation(Report(GetWeather(StringArgument(r.arguments, "city").value)), []))
  {
  }

  /**
   * Only `order_item` prints, and a request raises exactly when its tool is
   * known and the argument the tool reads is missing, or, for `search_items`
   * and `get_weather`, not a string.
   */
  lemma InvokeRaises(r: Request)
    ensures Invoke(r).Success? && Invoke(r).value.printed != [] ==> r.name == "order_item"
    ensures Invoke(r).Failure? <==> IsKnownTool(r.name) && !WellTyped(r)
  {
  }

  /** The request's arguments have what its (known) tool reads. */
  predicate WellTyped(r: Request)
  {
    if r.name == "search_items" then "query_string" in r.arguments && r.arguments["query_string"].Str?
    else if r.name == "get_weather" then "city" in r.arguments && r.arguments["city"].Str?
    else if r.name == "order_item" then "item_id" in r.arguments
    else true
  }

  // -------------------------------------------------------------- dispatch

  /** The transcript entries a batch of requests appends, what it prints, its last tool result, and the error that stopped it. */
  datatype Batch = Batch(entries: seq<Entry>, printed: seq<string>, last: Option<ToolOutput>, error: Option<ArgError>)

  /** The pair of entries one successful request appends: its call, then its output. */
  function CallPair(r: Request, output: ToolOutput): seq<Entry>
  {
    [FunctionCall(r.name, r.arguments, r.callId), FunctionCallOutput(r.callId, output)]
  }

  /** The dispatch loop over the requests, in order, stopping at the first request that raises. */
  function Dispatch(calls: seq<Request>, tools: Tools): Batch
    decreases |calls|
  {
    if calls == [] then Batch([], [], None, None)
    else
      var b := Dispatch(calls[..|calls| - 1], tools);
      var r := calls[|calls| - 1];
      if b.error.Some? then b
      else match tools(r)
        case Failure(e) => Batch(b.entries, b.printed, b.last, Some(e))
        case Success(inv) => Batch(b.entries + CallPair(r, inv.output), b.printed + inv.printed, Some(inv.output), None)
  }

  /** A batch stops with an error exactly when one of its requests raises. */
  lemma {:induction false} DispatchRaises(calls: seq<Request>, tools: Tools)
    ensures Dispatch(calls, tools).error.None? <==> forall k :: 0 <= k < |calls| ==> tools(calls[k]).Success?
    decreases |calls|
  {
    if calls != [] {
      var init := calls[..|calls| - 1];
      DispatchRaises(init, tools);
      if Dispatch(init, tools).error.Some? {
        var k :| 0 <= k < |init| && tools(init[k]).Failure?;
        assert calls[k] == init[k];
      }
    }
  }

  /**
   * A batch that raised has a first request that raises: every request
   * before it succeeded, and the batch kept exactly their pairs.
   */
  lemma {:induction false} DispatchFirstFailure(calls: seq<Request>, tools: Tools)
    requires Dispatch(calls, tools).error.Some?
    ensures exists k :: (0 <= k < |calls| && tools(calls[k]).Failure? && Dispatch(calls[..k], tools).error.None?
                         && Dispatch(calls, tools).entries == Dispatch(calls[..k], tools).entries)
    decreases |calls|
  {
    var init := calls[..|calls| - 1];
    if Dispatch(init, tools).error.Some? {
      DispatchFirstFailure(init, tools);
      var k :| 0 <= k < |init| && tools(init[k]).Failure? && Dispatch(init[..k], tools).error.None?
        && Dispatch(init, tools).entries == Dispatch(init[..k], tools).entries;
      assert init[..k] == calls[..k] && init[k] == calls[k];
    } else {
      var k := |calls| - 1;
      assert calls[..k] == init;
      assert tools(calls[k]).Failure? && Dispatch(calls[..k], tools).error.None?
        && Dispatch(calls, tools).entries == Dispatch(calls[..k], tools).entries;
    }
  }

  /** Without an error, the last tool result is the last request's output, and there is none for no requests. */
  lemma DispatchLast(calls: seq<Request>, tools: Tools)
    requires Dispatch(calls, tools).error.None?
    ensures calls == [] <==> Dispatch(calls, tools).last.None?
    ensures calls != [] ==> Dispatch(calls, tools).last == Some(tools(calls[|calls| - 1]).value.output)
  {
  }

  /**
   * Without an error, n requests append exactly 2n entries, the k-th pair
   * being the k-th request's call directly followed by its output under the
   * same call id.
   */
  lemma {:induction false} DispatchSpec(calls: seq<Request>, tools: Tools)
    requires Dispatch(calls, tools).error.None?
    ensures forall k :: 0 <= k < |calls| ==> tools(calls[k]).Success?
    ensures |Dispatch(calls, tools).entries| == 2 * |calls|
    ensures forall k :: 0 <= k < |calls| ==>
      Dispatch(calls, tools).entries[2 * k..2 * k + 2] == CallPair(calls[k], tools(calls[k]).value.output)
    decreases |calls|
  {
    DispatchRaises(calls, tools);
    if calls != [] {
      var init := calls[..|calls| - 1];
      var b := Dispatch(init, tools);
      DispatchSpec(init, tools);
      var e := Dispatch(calls, tools).entries;
      assert e == b.entries + CallPair(calls[|calls| - 1], tools(calls[|calls| - 1]).value.output);
      forall k | 0 <= k < |calls|
        ensures e[2 * k..2 * k + 2] == CallPair(calls[k], tools(calls[k]).value.output)
      {
        if k < |init| {
          assert e[2 * k..2 * k + 2] == b.entries[2 * k..2 * k + 2];
          assert init[k] == calls[k];
        }
      }
    }
  }

  /** One more request: a batch without error grows by that request's pair, or stops with its error. */
  lemma DispatchStep(calls: seq<Request>, i: nat, tools: Tools)
    requires i < |calls| && Dispatch(calls[..i], tools).error.None?
    ensures var b := Dispatch(calls[..i], tools);
      Dispatch(calls[..i + 1], tools) ==
        match tools(calls[i])
        case Failure(e) => Batch(b.entries, b.printed, b.last, Some(e))
        case Success(inv) => Batch(b.entries + CallPair(calls[i], inv.output), b.printed + inv.printed, Some(inv.output), None)
  {
    assert calls[..i + 1][..i] == calls[..i];
  }

  /** A request that succeeds after an error-free prefix extends the prefix's entries, printed lines and last output. */
  lemma DispatchGrows(calls: seq<Request>, i: nat, tools: Tools)
    requires i < |calls| && Dispatch(calls[..i], tools).error.None? && tools(calls[i]).Success?
    ensures var b := Dispatch(calls[..i], tools);
      var inv := tools(calls[i]).value;
      var next := Dispatch(calls[..i + 1], tools);
      && next.error.None?
      && next.entries == b.entries + CallPair(calls[i], inv.output)
      && AsLines(next.printed) == AsLines(b.printed) + AsLines(inv.printed)
      && next.last == Some(inv.output)
  {
    DispatchStep(calls, i, tools);
    AsLinesAppend(Dispatch(calls[..i], tools).printed, tools(calls[i]).value.printed);
  }

  /** A request that raises after an error-free prefix ends the whole batch with the prefix's entries and its error. */
  lemma DispatchFails(calls: seq<Request>, i: nat, tools: Tools)
    requires i < |calls| && Dispatch(calls[..i], tools).error.None? && tools(calls[i]).Failure?
    ensures var b := Dispatch(calls[..i], tools);
      Dispatch(calls, tools) == Batch(b.entries, b.printed, b.last, Some(tools(calls[i]).error))
  {
    DispatchStep(calls, i, tools);
    DispatchStops(calls, i + 1, tools);
  }

  /** Once a prefix of the batch has raised, the rest of the batch is not dispatched. */
  lemma {:induction false} DispatchStops(calls: seq<Request>, j: nat, tools: Tools)
    requires j <= |calls| && Dispatch(calls[..j], tools).error.Some?
    ensures Dispatch(calls, tools) == Dispatch(calls[..j], tools)
    decreases |calls| - j
  {
    if j < |calls| {
      assert calls[..|calls| - 1][..j] == calls[..j];
      DispatchStops(calls[..|calls| - 1], j, tools);
    } else {
      assert calls[..j] == calls;
    }
  }

  // ------------------------------------------------- transcript structure

  /**
   * Every function call is directly followed by the output with its call id,
   * and every output directly follows the call with its call id.
   */
  ghost predicate Paired(msgs: seq<Entry>)
  {
    && (forall i :: 0 <= i < |msgs| && msgs[i].FunctionCall? ==>
          i + 1 < |msgs| && msgs[i + 1].FunctionCallOutput? && msgs[i + 1].callId == msgs[i].callId)
    && (forall i :: 0 <= i < |msgs| && msgs[i].FunctionCallOutput? ==>
          0 < i && msgs[i - 1].FunctionCall? && msgs[i - 1].callId == msgs[i].callId)
  }

  /** Two paired transcripts joined where no call is left open and no output is cut off stay paired. */
  lemma PairedAppend(a: seq<Entry>, b: seq<Entry>)
    requires Paired(a) && Paired(b)
    requires a != [] ==> !a[|a| - 1].FunctionCall?
    requires b != [] ==> !b[0].FunctionCallOutput?
    ensures Paired(a + b)
  {
    var ab := a + b;
    forall i | 0 <= i < |ab| && ab[i].FunctionCall?
      ensures i + 1 < |ab| && ab[i + 1].FunctionCallOutput? && ab[i + 1].callId == ab[i].callId
    {
      if i < |a| {
        assert a[i] == ab[i];
      } else {
        assert b[i - |a|] == ab[i];
      }
    }
    forall i | 0 <= i < |ab| && ab[i].FunctionCallOutput?
      ensures 0 < i && ab[i - 1].FunctionCall? && ab[i - 1].callId == ab[i].callId
    {
      if i < |a| {
        assert a[i] == ab[i];
      } else {
        assert b[i - |a|] == ab[i];
      }
    }
  }

  /**
   * The entries of a batch are calls and outputs only, correctly paired,
   * starting with a call and ending with an output; this holds also when a
   * request raised part-way.
   */
  lemma {:induction false} DispatchPaired(calls: seq<Request>, tools: Tools)
    ensures Paired(Dispatch(calls, tools).entries)
    ensures forall i :: 0 <= i < |Dispatch(calls, tools).entries| ==>
      Dispatch(calls, tools).entries[i].FunctionCall? || Dispatch(calls, tools).entries[i].FunctionCallOutput?
    ensures Dispatch(calls, tools).entries != [] ==>
      Dispatch(calls, tools).entries[0].FunctionCall? && Dispatch(calls, tools).entries[|Dispatch(calls, tools).entries| - 1].FunctionCallOutput?
    decreases |calls|
  {
    if calls != [] {
      var init := calls[..|calls| - 1];
      DispatchPaired(init, tools);
      var b := Dispatch(init, tools);
      var r := calls[|calls| - 1];
      if b.error.None? && tools(r).Success? {
        var pair := CallPair(r, tools(r).value.output);
        assert Paired(pair);
        PairedAppend(b.entries, pair);
      }
    }
  }

  /**
   * The trim before a user turn: drops the trailing run of tool outputs,
   * leaving the longest prefix of `msgs` whose last entry is not a
   * `FunctionCallOutput`.
   */
  function Trimmed(msgs: seq<Entry>): (r: seq<Entry>)
    ensures r <= msgs
    ensures forall k :: |r| <= k < |msgs| ==> msgs[k].FunctionCallOutput?
    ensures r != [] ==> !r[|r| - 1].FunctionCallOutput?
    decreases |msgs|
  {
    if msgs != [] && msgs[|msgs| - 1].FunctionCallOutput? then Trimmed(msgs[..|msgs| - 1]) else msgs
  }

  /**
   * The trim keeps a leading system entry, is a no-op when the last entry is
   * not an output, and trimming twice is trimming once.
   */
  lemma TrimmedSpec(msgs: seq<Entry>)
    ensures msgs != [] && msgs[0].System? ==> Trimmed(msgs) != [] && Trimmed(msgs)[0] == msgs[0]
    ensures msgs == [] || !msgs[|msgs| - 1].FunctionCallOutput? ==> Trimmed(msgs) == msgs
    ensures Trimmed(Trimmed(msgs)) == Trimmed(msgs)
  {
  }

  /**
   * A well-formed transcript between turns: the system entry first and
   * nowhere else, calls and outputs paired, and the last entry the system
   * entry or an assistant turn.
   */
  ghost predicate Settled(msgs: seq<Entry>)
  {
    && msgs != []
    && msgs[0].System?
    && (forall i :: 0 < i < |msgs| ==> !msgs[i].System?)
    && Paired(msgs)
    && (msgs[|msgs| - 1].System? || msgs[|msgs| - 1].Assistant?)
  }

  // ------------------------------------------------------------------ turn

  /** Everything a session has produced so far: transcript, console lines, and the transcripts sent for completion. */
  datatype State = State(messages: seq<Entry>, console: seq<Printed>, sent: seq<seq<Entry>>)

  /** How a turn ends: the user quit, an answer was shown, or a tool request raised. */
  datatype Outcome = Ended | Answered | Crashed(error: ArgError)

  datatype Step = Step(state: State, outcome: Outcome)

  /** The console lines for the strings a tool printed. */
  function AsLines(ss: seq<string>): seq<Printed>
  {
    if ss == [] then [] else [Line(ss[0])] + AsLines(ss[1..])
  }

  lemma {:induction false} AsLinesAppend(a: seq<string>, b: seq<string>)
    ensures AsLines(a + b) == AsLines(a) + AsLines(b)
    decreases |a|
  {
    if a == [] {
      assert a + b == b;
    } else {
      assert (a + b)[1..] == a[1..] + b;
      AsLinesAppend(a[1..], b);
    }
  }

  /** The input that ends the session: `bye` in any case, or nothing, after stripping. */
  predicate IsQuit(line: string)
  {
    Lower(Strip(line)) == "bye" || Strip(line) == ""
  }

  /** What the turn prints: the reply unless blank, else the batch's last tool result, else the no-response line. */
  function Present(reply: string, toolResult: Option<ToolOutput>): Printed
  {
    if !IsBlank(reply) then Line("Barista: " + reply)
    else if toolResult.Some? then ToolResult(toolResult.value)
    else Line(NO_RESPONSE)
  }

  /** One pass of the session loop of `main()`, for one line of input. */
  function Turn(st: State, line: string, gateway: Gateway, tools: Tools): Step
  {
    if IsQuit(line) then Step(State(st.messages, st.console + [Line(FAREWELL)], st.sent), Ended)
    else Exchange(st, Strip(line), gateway, tools)
  }

  /** The rest of the pass for a user input that does not end the session. */
  function Exchange(st: State, input: string, gateway: Gateway, tools: Tools): Step
  {
    var asked := Trimmed(st.messages) + [User(input)];
    var first := gateway(asked);
    if first.calls == [] then
      var reply := first.outputText;
      Step(State(asked + [Assistant(reply)], st.console + [Present(reply, None)], st.sent + [asked]), Answered)
    else
      var b := Dispatch(first.calls, tools);
      var withTools := asked + b.entries;
      var console := st.console + AsLines(b.printed);
      if b.error.Some? then
        Step(State(withTools, console, st.sent + [asked]), Crashed(b.error.value))
      else
        var reply := gateway(withTools).outputText;
        Step(State(withTools + [Assistant(reply)], console + [Present(reply, b.last)], st.sent + [asked, withTools]), Answered)
  }

  /**
   * The reply an answered exchange shows and records: the first completion's
   * text, or the second's when tools ran. `Exchange` makes the same choice
   * inline; `ExchangeAnswered` proves that its assistant entry holds this reply.
   */
  function FinalReply(st: State, input: string, gateway: Gateway, tools: Tools): string
  {
    var asked := Trimmed(st.messages) + [User(input)];
    var first := gateway(asked);
    if first.calls == [] then first.outputText
    else gateway(asked + Dispatch(first.calls, tools).entries).outputText
  }

  /** On `bye` or empty input the session ends with the farewell and the transcript is left unchanged. */
  lemma TurnQuit(st: State, line: string, gateway: Gateway, tools: Tools)
    ensures IsQuit(line) <==> Turn(st, line, gateway, tools).outcome == Ended
    ensures IsQuit(line) ==> Turn(st, line, gateway, tools).state == State(st.messages, st.console + [Line(FAREWELL)], st.sent)
  {
  }

  /**
   * An exchange is answered exactly when no request of the first completion
   * raises; the transcript is then the trimmed one, the user turn, the
   * batch's pairs and the assistant entry with the final reply.
   */
  lemma ExchangeAnswered(st: State, input: string, gateway: Gateway, tools: Tools)
    ensures var asked := Trimmed(st.messages) + [User(input)];
      var b := Dispatch(gateway(asked).calls, tools);
      var s := Exchange(st, input, gateway, tools);
      && (s.outcome == Answered <==> b.error.None?)
      && (s.outcome == Answered ==> s.state.messages == asked + b.entries + [Assistant(FinalReply(st, input, gateway, tools))])
  {
    var asked := Trimmed(st.messages) + [User(input)];
    if gateway(asked).calls == [] {
      assert Dispatch(gateway(asked).calls, tools).entries == [];
    }
  }

  /**
   * Any other input: the trimmed transcript gets the stripped user turn; each
   * request of the first completion appends a call and its output; and the
   * turn ends with one assistant entry holding the last completion's raw
   * text. The transcript grows by exactly 2n + 2 entries over the trimmed one.
   */
  lemma TurnAnswered(st: State, line: string, gateway: Gateway, tools: Tools)
    requires !IsQuit(line)
    ensures var asked := Trimmed(st.messages) + [User(Strip(line))];
      var calls := gateway(asked).calls;
      var s := Turn(st, line, gateway, tools);
      && (s.outcome == Answered <==> Dispatch(calls, tools).error.None?)
      && (s.outcome == Answered ==>
            && s.state.messages == asked + Dispatch(calls, tools).entries + [Assistant(FinalReply(st, Strip(line), gateway, tools))]
            && |s.state.messages| == |Trimmed(st.messages)| + 2 * |calls| + 2)
  {
    var asked := Trimmed(st.messages) + [User(Strip(line))];
    var calls := gateway(asked).calls;
    ExchangeAnswered(st, Strip(line), gateway, tools);
    if Dispatch(calls, tools).error.None? {
      DispatchSpec(calls, tools);
    }
  }

  /**
   * The first completion of a turn sees exactly the trimmed transcript and
   * the user turn; when there were requests, exactly one more completion
   * sees the transcript including every output.
   */
  lemma TurnSent(st: State, line: string, gateway: Gateway, tools: Tools)
    requires !IsQuit(line) && Turn(st, line, gateway, tools).outcome == Answered
    ensures var asked := Trimmed(st.messages) + [User(Strip(line))];
      var calls := gateway(asked).calls;
      Turn(st, line, gateway, tools).state.sent ==
        st.sent + (if calls == [] then [asked] else [asked, asked + Dispatch(calls, tools).entries])
  {
  }

  /** An answered turn prints the lines of its tools in order, then exactly one more line. */
  lemma TurnConsole(st: State, line: string, gateway: Gateway, tools: Tools)
    requires !IsQuit(line) && Turn(st, line, gateway, tools).outcome == Answered
    ensures var asked := Trimmed(st.messages) + [User(Strip(line))];
      var console := Turn(st, line, gateway, tools).state.console;
      && |console| == |st.console| + |AsLines(Dispatch(gateway(asked).calls, tools).printed)| + 1
      && console[..|console| - 1] == st.console + AsLines(Dispatch(gateway(asked).calls, tools).printed)
  {
    var asked := Trimmed(st.messages) + [User(Strip(line))];
    if gateway(asked).calls == [] {
      assert AsLines([]) == [];
    }
  }

  /**
   * What an answered turn prints last: the final reply when it is not blank;
   * otherwise the last tool result of the batch when there was one; otherwise
   * the no-response line.
   */
  lemma TurnPresentation(st: State, line: string, gateway: Gateway, tools: Tools)
    requires !IsQuit(line) && Turn(st, line, gateway, tools).outcome == Answered
    ensures var asked := Trimmed(st.messages) + [User(Strip(line))];
      var calls := gateway(asked).calls;
      var reply := FinalReply(st, Strip(line), gateway, tools);
      var console := Turn(st, line, gateway, tools).state.console;
      && |console| > |st.console|
      && console[|console| - 1] ==
           if !IsBlank(reply) then Line("Barista: " + reply)
           else if calls != [] then ToolResult(tools(calls[|calls| - 1]).value.output)
           else Line(NO_RESPONSE)
  {
    var asked := Trimmed(st.messages) + [User(Strip(line))];
    DispatchLast(gateway(asked).calls, tools);
  }

  /**
   * A turn that raises has sent one transcript only and recorded, after the
   * user turn, the entries of a batch that stopped with an error: by
   * `DispatchFirstFailure`, the pairs of the requests before the first one
   * that raised.
   */
  lemma TurnCrashed(st: State, line: string, gateway: Gateway, tools: Tools)
    requires !IsQuit(line) && Turn(st, line, gateway, tools).outcome.Crashed?
    ensures var asked := Trimmed(st.messages) + [User(Strip(line))];
      var calls := gateway(asked).calls;
      var s := Turn(st, line, gateway, tools).state;
      && calls != []
      && Dispatch(calls, tools).error.Some?
      && Turn(st, line, gateway, tools).outcome == Crashed(Dispatch(calls, tools).error.value)
      && s.messages == asked + Dispatch(calls, tools).entries
      && s.sent == st.sent + [asked]
  {
    assert Turn(st, line, gateway, tools) == Exchange(st, Strip(line), gateway, tools);
  }

  /**
   * A settled transcript followed by a user turn, a batch of paired calls
   * and outputs, and an assistant turn is settled again.
   */
  lemma SettledExtend(msgs: seq<Entry>, input: string, entries: seq<Entry>, reply: string)
    requires Settled(msgs) && Paired(entries)
    requires forall i :: 0 <= i < |entries| ==> entries[i].FunctionCall? || entries[i].FunctionCallOutput?
    requires entries != [] ==> entries[0].FunctionCall? && entries[|entries| - 1].FunctionCallOutput?
    ensures Settled(msgs + [User(input)] + entries + [Assistant(reply)])
  {
    var asked := msgs + [User(input)];
    var result := asked + entries + [Assistant(reply)];
    PairedAppend(msgs, [User(input)]);
    PairedAppend(asked, entries);
    PairedAppend(asked + entries, [Assistant(reply)]);
    forall i | 0 < i < |result| ensures !result[i].System? {
      if i < |msgs| {
        assert result[i] == msgs[i];
      } else if i > |msgs| && i < |asked| + |entries| {
        assert result[i] == entries[i - |asked|];
      }
    }
  }

  /**
   * From a settled transcript an answered turn leaves a settled transcript
   * that extends the old one: the trim removes nothing, the system entry
   * stays first, and every call is paired with its output.
   */
  lemma TurnKeepsSettled(st: State, line: string, gateway: Gateway, tools: Tools)
    requires Settled(st.messages)
    requires Turn(st, line, gateway, tools).outcome == Answered
    ensures Settled(Turn(st, line, gateway, tools).state.messages)
    ensures st.messages < Turn(st, line, gateway, tools).state.messages
  {
    TrimmedSpec(st.messages);
    TurnQuit(st, line, gateway, tools);
    TurnAnswered(st, line, gateway, tools);
    var calls := gateway(st.messages + [User(Strip(line))]).calls;
    DispatchPaired(calls, tools);
    SettledExtend(st.messages, Strip(line), Dispatch(calls, tools).entries, FinalReply(st, Strip(line), gateway, tools));
  }

  /** Each transcript sent is longer than every one sent before it. */
  ghost predicate Lengthening(sent: seq<seq<Entry>>)
  {
    forall i, j :: 0 <= i < j < |sent| ==> |sent[i]| < |sent[j]|
  }

  /** What was sent so far is lengthening, and the current transcript is longer than the last one sent. */
  ghost predicate SentBefore(st: State)
  {
    Lengthening(st.sent) && (st.sent != [] ==> |st.sent[|st.sent| - 1]| < |st.messages|)
  }

  /**
   * From a settled transcript, an answered turn sends only transcripts
   * longer than everything sent before, and leaves the transcript longer
   * than the last one it sent.
   */
  lemma TurnSendsLonger(st: State, line: string, gateway: Gateway, tools: Tools)
    requires Settled(st.messages) && SentBefore(st)
    requires Turn(st, line, gateway, tools).outcome == Answered
    ensures SentBefore(Turn(st, line, gateway, tools).state)
  {
    TrimmedSpec(st.messages);
    TurnQuit(st, line, gateway, tools);
    TurnAnswered(st, line, gateway, tools);
    TurnSent(st, line, gateway, tools);
    var asked := st.messages + [User(Strip(line))];
    var calls := gateway(asked).calls;
    if calls != [] {
      DispatchSpec(calls, tools);
    }
  }

  /** A turn that raises sends one transcript, longer than everything sent before. */
  lemma TurnCrashSendsLonger(st: State, line: string, gateway: Gateway, tools: Tools)
    requires Settled(st.messages) && SentBefore(st)
    requires Turn(st, line, gateway, tools).outcome.Crashed?
    ensures Lengthening(Turn(st, line, gateway, tools).state.sent)
  {
    TrimmedSpec(st.messages);
    TurnQuit(st, line, gateway, tools);
    TurnCrashed(st, line, gateway, tools);
  }

  // ------------------------------------------------------------------- run

  /** How the session loop stops: the user quit, a tool request raised, or the input ran out (`EOFError`). */
  datatype Exit = Quit | Crash(error: ArgError) | EndOfInput

  datatype Finish = Finish(state: State, exit: Exit)

  /** The `while True` loop of `main()` over the lines the user types. */
  function Run(st: State, lines: seq<string>, gateway: Gateway, tools: Tools): Finish
    decreases |lines|
  {
    if lines == [] then Finish(st, EndOfInput)
    else
      var s := Turn(st, lines[0], gateway, tools);
      match s.outcome
      case Ended => Finish(s.state, Quit)
      case Crashed(e) => Finish(s.state, Crash(e))
      case Answered => Run(s.state, lines[1..], gateway, tools)
  }

  /** The transcript `main()` starts from. */
  function Initial(prompt: string): State
  {
    State([System(prompt)], [Line(WELCOME)], [])
  }

  /**
   * A session that quits or runs out of input leaves a settled transcript:
   * whatever the service answers, no trim ever removes an entry, no call is
   * left without its output, and the system entry is still the only first one.
   */
  lemma {:induction false} RunKeepsSettled(st: State, lines: seq<string>, gateway: Gateway, tools: Tools)
    requires Settled(st.messages)
    requires !Run(st, lines, gateway, tools).exit.Crash?
    ensures Settled(Run(st, lines, gateway, tools).state.messages)
    ensures st.messages <= Run(st, lines, gateway, tools).state.messages
    decreases |lines|
  {
    if lines != [] {
      var s := Turn(st, lines[0], gateway, tools);
      if s.outcome == Answered {
        TurnKeepsSettled(st, lines[0], gateway, tools);
        RunKeepsSettled(s.state, lines[1..], gateway, tools);
      }
    }
  }

  /**
   * A whole session of `main()` that quits or runs out of input ends with a
   * settled transcript that still starts with the system prompt.
   */
  lemma MainKeepsSettled(prompt: string, lines: seq<string>, gateway: Gateway, tools: Tools)
    requires !Run(Initial(prompt), lines, gateway, tools).exit.Crash?
    ensures Settled(Run(Initial(prompt), lines, gateway, tools).state.messages)
    ensures Run(Initial(prompt), lines, gateway, tools).state.messages[0] == System(prompt)
  {
    var st := Initial(prompt);
    assert Settled(st.messages);
    RunKeepsSettled(st, lines, gateway, tools);
  }

  /**
   * Along a session from a settled transcript, whatever the service answers
   * and however the session ends, every completion is sent a longer
   * transcript than the one before.
   */
  lemma {:induction false} RunSendsLonger(st: State, lines: seq<string>, gateway: Gateway, tools: Tools)
    requires Settled(st.messages) && SentBefore(st)
    ensures Lengthening(Run(st, lines, gateway, tools).state.sent)
    decreases |lines|
  {
    if lines != [] {
      var s := Turn(st, lines[0], gateway, tools);
      TurnQuit(st, lines[0], gateway, tools);
      match s.outcome
      case Ended =>
      case Crashed(_) => TurnCrashSendsLonger(st, lines[0], gateway, tools);
      case Answered =>
        TurnKeepsSettled(st, lines[0], gateway, tools);
        TurnSendsLonger(st, lines[0], gateway, tools);
        RunSendsLonger(s.state, lines[1..], gateway, tools);
    }
  }

  /** In a whole session of `main()`, every completion is sent a longer transcript than the one before. */
  lemma MainSendsLonger(prompt: string, lines: seq<string>, gateway: Gateway, tools: Tools)
    ensures Lengthening(Run(Initial(prompt), lines, gateway, tools).state.sent)
  {
    assert Settled(Initial(prompt).messages);
    RunSendsLonger(Initial(prompt), lines, gateway, tools);
  }
}
