/**
 * The interactive session of `main()`: a transcript that the session loop
 * changes in place, by popping trailing tool outputs and appending turns.
 * Every method is proved to compute what module Conversation specifies.
 */
module Barista {
  import opened Wrappers
  import opened Text
  import opened Menu
  import opened Conversation

  /** The `if tool_name == ...` chain: `search_items` runs its loop, the other tools are functions. */
  method InvokeTool(r: Request) returns (res: Result<Invocation, ArgError>)
    ensures res == Invoke(r)
  {
    if r.name == "search_items" {
      var query := StringArgument(r.arguments, "query_string");
      if query.Failure? {
        return Failure(query.error);
      }
      var items := SearchItems(query.value);
      res := Success(Invocation(Listing(items), []));
    } else if r.name == "get_weather" {
      var city := StringArgument(r.arguments, "city");
      if city.Failure? {
        return Failure(city.error);
      }
      res := Success(Invocation(Report(GetWeather(city.value)), []));
    } else if r.name == "order_item" {
      if "item_id" !in r.arguments {
        return Failure(MissingArgument("item_id"));
      }
      var receipt := OrderItem(r.arguments["item_id"]);
      res := Success(Invocation(Message(receipt.message), receipt.printed));
    } else {
      res := Success(Invocation(Message(UNKNOWN_TOOL), []));
    }
  }

  /**
   * One run of `main()`: its `messages` list, its console, and what it sent
   * for completion. The tool registry is fixed when the session starts.
   */
  class Session {
    const tools: Tools
    var messages: seq<Entry>
    var console: seq<Printed>
    var sent: seq<seq<Entry>>

    function Current(): State
      reads this
    {
      State(messages, console, sent)
    }

    /** The welcome line, and a transcript holding only the system prompt. */
    constructor (prompt: string, tools: Tools)
      ensures Current() == Initial(prompt) && this.tools == tools
    {
      this.tools := tools;
      messages := [System(prompt)];
      console := [Line(WELCOME)];
      sent := [];
    }

    /** The loop before each user turn that pops tool outputs off the end of the transcript. */
    method TrimTrailingOutputs()
      modifies this
      ensures messages == Trimmed(old(messages))
      ensures console == old(console) && sent == old(sent)
    {
      while messages != [] && messages[|messages| - 1].FunctionCallOutput?
        invariant Trimmed(messages) == Trimmed(old(messages))
        invariant console == old(console) && sent == old(sent)
        decreases |messages|
      {
        messages := messages[..|messages| - 1];
      }
    }

    /** One request to the completion service, which is sent the whole transcript. */
    method Complete(gateway: Gateway) returns (response: Response)
      modifies this
      ensures response == gateway(messages)
      ensures messages == old(messages) && console == old(console) && sent == old(sent) + [messages]
    {
      sent := sent + [messages];
      response := gateway(messages);
    }

    /**
     * The `for function_call in function_calls` loop: each request, in order,
     * appends its call and its output; `tool_result` ends as the last output.
     */
    method DispatchCalls(calls: seq<Request>) returns (toolResult: Option<ToolOutput>, error: Option<ArgError>)
      modifies this
      ensures messages == old(messages) + Dispatch(calls, tools).entries
      ensures console == old(console) + AsLines(Dispatch(calls, tools).printed)
      ensures sent == old(sent)
      ensures error == Dispatch(calls, tools).error
      ensures error.None? ==> toolResult == Dispatch(calls, tools).last
    {
      toolResult, error := None, None;
      var i := 0;
      while i < |calls|
        invariant 0 <= i <= |calls|
        invariant Dispatch(calls[..i], tools).error.None?
        invariant messages == old(messages) + Dispatch(calls[..i], tools).entries
        invariant console == old(console) + AsLines(Dispatch(calls[..i], tools).printed)
        invariant sent == old(sent)
        invariant toolResult == Dispatch(calls[..i], tools).last
      {
        var call := calls[i];
        var result := tools(call);
        if result.Failure? {
          DispatchFails(calls, i, tools);
          error := Some(result.error);
          return;
        }
        var inv := result.value;
        DispatchGrows(calls, i, tools);
        toolResult := Some(inv.output);
        messages := messages + CallPair(call, inv.output);
        console := console + AsLines(inv.printed);
        i := i + 1;
      }
      assert calls[..i] == calls;
    }

    /** One pass of the `while True` loop of `main()`, for one line typed by the user. */
    method Turn(line: string, gateway: Gateway) returns (outcome: Outcome)
      modifies this
      ensures Step(Current(), outcome) == Conversation.Turn(old(Current()), line, gateway, tools)
    {
      var userInput := Strip(line);
      if Lower(userInput) == "bye" || userInput == "" {
        console := console + [Line(FAREWELL)];
        return Ended;
      }
      outcome := Exchange(userInput, gateway);
    }

    /** The pass for an input that does not end the session: user turn, completions, tools, answer. */
    method Exchange(userInput: string, gateway: Gateway) returns (outcome: Outcome)
      modifies this
      ensures Step(Current(), outcome) == Conversation.Exchange(old(Current()), userInput, gateway, tools)
    {
      ghost var st := Current();
      TrimTrailingOutputs();
      messages := messages + [User(userInput)];
      var response := Complete(gateway);
      var assistantReply := response.outputText;
      var functionCalls := response.calls;
      var toolResult: Option<ToolOutput> := None;
      if functionCalls != [] {
        var error;
        toolResult, error := DispatchCalls(functionCalls);
        if error.Some? {
          return Crashed(error.value);
        }
        DispatchLast(functionCalls, tools);
        response := Complete(gateway);
        assistantReply := response.outputText;
      }
      Answer(assistantReply, functionCalls != [], toolResult);
      outcome := Answered;
    }

    /**
     * The end of a pass: print the reply, or when it is blank the last tool
     * result if tools ran, or else the no-response line; then record the reply.
     */
    method Answer(reply: string, usedTools: bool, toolResult: Option<ToolOutput>)
      requires usedTools <==> toolResult.Some?
      modifies this
      ensures console == old(console) + [Present(reply, toolResult)]
      ensures messages == old(messages) + [Assistant(reply)] && sent == old(sent)
    {
      if IsBlank(reply) {
        if usedTools {
          console := console + [ToolResult(toolResult.value)];
        } else {
          console := console + [Line(NO_RESPONSE)];
        }
      } else {
        console := console + [Line("Barista: " + reply)];
      }
      messages := messages + [Assistant(reply)];
    }

    /** The `while True` loop of `main()` over the lines the user types, until one of them ends it. */
    method Run(lines: seq<string>, gateway: Gateway) returns (exit: Exit)
      modifies this
      ensures Finish(Current(), exit) == Conversation.Run(old(Current()), lines, gateway, tools)
    {
      var i := 0;
      while i < |lines|
        invariant 0 <= i <= |lines|
        invariant Conversation.Run(Current(), lines[i..], gateway, tools) == Conversation.Run(old(Current()), lines, gateway, tools)
      {
        var outcome := Turn(lines[i], gateway);
        if outcome.Ended? {
          return Quit;
        }
        if outcome.Crashed? {
          return Crash(outcome.error);
        }
        i := i + 1;
      }
      exit := EndOfInput;
    }
  }

  /** `main()`: greet, seed the transcript with the system prompt, then run the session loop. */
  method Chat(prompt: string, lines: seq<string>, gateway: Gateway) returns (session: Session, exit: Exit)
    ensures fresh(session)
    ensures Finish(session.Current(), exit) == Conversation.Run(Initial(prompt), lines, gateway, Invoke)
  {
    session := new Session(prompt, Invoke);
    exit := session.Run(lines, gateway);
  }
}
