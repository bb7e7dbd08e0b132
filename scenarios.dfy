/** A scripted session: the cappuccino order of the program's own example run. */
module Scenarios {
  import opened Wrappers
  import opened Text
  import opened Menu
  import opened Conversation

  const ORDER_REQUEST := Request("order_item", map["item_id" := Int(2)], "call_1")

  /**
   * A stub service: for a transcript ending in a user turn it requests
   * `order_item(2)`; once it is shown the tool result it answers `narration`.
   */
  function OrderScript(narration: string): Gateway
  {
    (t: seq<Entry>) =>
      if t != [] && t[|t| - 1].User? then Response("", [ORDER_REQUEST]) else Response(narration, [])
  }

  /**
   * A user line answered by the scripted order, with any registry that
   * answers the order request with a confirmation it prints: the transcript
   * gains the stripped user turn, exactly one call and its matching output
   * holding the confirmation, and one assistant entry with the scripted
   * text; the confirmation is printed before the answer, and the service is
   * asked exactly twice.
   */
  lemma OrderScenario(prompt: string, line: string, narration: string, tools: Tools, confirmation: string)
    requires !IsQuit(line)
    requires tools(ORDER_REQUEST) == Success(Invocation(Message(confirmation), [confirmation]))
    ensures var s := Turn(Initial(prompt), line, OrderScript(narration), tools);
      && s.outcome == Answered
      && s.state.messages == [System(prompt), User(Strip(line))] + CallPair(ORDER_REQUEST, Message(confirmation)) + [Assistant(narration)]
      && s.state.console == [Line(WELCOME), Line(confirmation), Present(narration, Some(Message(confirmation)))]
      && |s.state.sent| == 2
  {
    var input := Strip(line);
    assert Turn(Initial(prompt), line, OrderScript(narration), tools) == Exchange(Initial(prompt), input, OrderScript(narration), tools);
    OrderExchange(prompt, input, narration, tools, confirmation);
  }

  lemma OrderExchange(prompt: string, input: string, narration: string, tools: Tools, confirmation: string)
    requires tools(ORDER_REQUEST) == Success(Invocation(Message(confirmation), [confirmation]))
    ensures var s := Exchange(Initial(prompt), input, OrderScript(narration), tools);
      var asked := [System(prompt), User(input)];
      var withTools := asked + CallPair(ORDER_REQUEST, Message(confirmation));
      s == Step(State(withTools + [Assistant(narration)],
                      [Line(WELCOME), Line(confirmation), Present(narration, Some(Message(confirmation)))],
                      [asked, withTools]),
                Answered)
  {
    var st := Initial(prompt);
    var g := OrderScript(narration);
    var asked := [System(prompt), User(input)];
    assert Trimmed(st.messages) + [User(input)] == asked;
    assert g(asked) == Response("", [ORDER_REQUEST]);
    OrderBatch(tools, confirmation);
    var b := Dispatch([ORDER_REQUEST], tools);
    assert AsLines([confirmation]) == [Line(confirmation)];
    var withTools := asked + b.entries;
    assert withTools[|withTools| - 1] == FunctionCallOutput("call_1", Message(confirmation));
    assert g(withTools) == Response(narration, []);
  }

  /** The scripted batch: one request, one pair, one printed confirmation. */
  lemma OrderBatch(tools: Tools, confirmation: string)
    requires tools(ORDER_REQUEST) == Success(Invocation(Message(confirmation), [confirmation]))
    ensures Dispatch([ORDER_REQUEST], tools) ==
      Batch(CallPair(ORDER_REQUEST, Message(confirmation)), [confirmation], Some(Message(confirmation)), None)
  {
    assert [ORDER_REQUEST][..0] == [];
    DispatchStep([ORDER_REQUEST], 0, tools);
    assert [ORDER_REQUEST][..1] == [ORDER_REQUEST];
  }

  /** The barista's own registry answers the order request with the cappuccino confirmation, printed once. */
  lemma InvokeOrderRequest()
    ensures Invoke(ORDER_REQUEST) == Success(Invocation(Message(OrderItem(Int(2)).message), [OrderItem(Int(2)).message]))
    ensures Contains(OrderItem(Int(2)).message, "Cappuccino")
  {
    OrderCappuccinoExample();
  }

  /** The scripted order turn with the barista's own registry: it confirms the cappuccino before the narration. */
  lemma OrderScenarioBarista(prompt: string, line: string, narration: string)
    requires !IsQuit(line)
    ensures var confirmation := OrderItem(Int(2)).message;
      var s := Turn(Initial(prompt), line, OrderScript(narration), Invoke);
      && s.outcome == Answered
      && s.state.messages == [System(prompt), User(Strip(line))] + CallPair(ORDER_REQUEST, Message(confirmation)) + [Assistant(narration)]
      && s.state.console == [Line(WELCOME), Line(confirmation), Present(narration, Some(Message(confirmation)))]
      && Contains(confirmation, "Cappuccino")
  {
    InvokeOrderRequest();
    OrderScenario(prompt, line, narration, Invoke, OrderItem(Int(2)).message);
  }
}
