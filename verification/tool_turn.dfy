/** One conversation turn of `run_model` in client/mcp_client.py: ask the
    LLM once, run the tool calls it requests in order, resubmit once, and
    return the final text. The LLM, the tools and the JSON encoder are
    parameters; the turn records every LLM request and tool invocation it
    performs in a trace. */
module ToolTurn {
  import opened Wrappers
  import opened Messages
  import opened ToolRegistry

  /** The external effects of a turn, in the order they happen. */
  datatype Event =
    | AskLlm(input: seq<Message>)
    | Invoke(tool: string, args: Args)

  /** Why a turn ends without text. */
  datatype TurnError =
    | ToolNotFound(name: string)                  // `named_tools[tool_name]` raised KeyError
    | ToolFailed(name: string, reason: string)    // the tool's invocation raised
    | LlmFailed(reason: string)                   // an LLM request raised

  /** The outcome of the tool-execution loop and what it did. */
  datatype Exec = Exec(outcome: Result<seq<Message>, TurnError>, trace: seq<Event>)

  /** The outcome of a whole turn and what it did. */
  datatype Turn = Turn(result: Result<string, TurnError>, trace: seq<Event>)

  /** The invocation event of one call. */
  function Invocation(tc: ToolCall): Event {
    Invoke(tc.name, ArgsOf(tc))
  }

  /** One call resolves to a tool and that tool returns normally. */
  predicate Succeeds(named: map<string, Tool>, tc: ToolCall) {
    tc.name in named && named[tc.name](ArgsOf(tc)).Success?
  }

  /** The tool message a successful call produces: the encoded result,
      tagged with the call's id. */
  function Reply(named: map<string, Tool>, encode: Json -> string, tc: ToolCall): Message
    requires Succeeds(named, tc)
  {
    ToolMessage(encode(named[tc.name](ArgsOf(tc)).value), tc.id)
  }

  /** The error a failing call ends the turn with. */
  function FailureOf(named: map<string, Tool>, tc: ToolCall): TurnError
    requires !Succeeds(named, tc)
  {
    if tc.name !in named then ToolNotFound(tc.name)
    else ToolFailed(tc.name, named[tc.name](ArgsOf(tc)).error)
  }

  /** Reference definitions, element by element, of the events and replies
      of a list of calls. */
  function Invocations(calls: seq<ToolCall>): seq<Event> {
    seq(|calls|, i requires 0 <= i < |calls| => Invocation(calls[i]))
  }

  function Replies(named: map<string, Tool>, encode: Json -> string, calls: seq<ToolCall>): seq<Message>
    requires forall i :: 0 <= i < |calls| ==> Succeeds(named, calls[i])
  {
    seq(|calls|, i requires 0 <= i < |calls| => Reply(named, encode, calls[i]))
  }

  /** `k` is the first call that does not succeed. */
  ghost predicate FirstFailure(named: map<string, Tool>, calls: seq<ToolCall>, k: nat) {
    && k < |calls|
    && !Succeeds(named, calls[k])
    && forall i :: 0 <= i < k ==> Succeeds(named, calls[i])
  }

  /** The `for tc in response.tool_calls` loop, defined on a list of calls
      as the loop over its prefix followed by its last call. The loop stops
      at the first call whose tool is missing (no invocation happens) or
      whose invocation raises (the invocation happened). */
  function ExecuteCalls(named: map<string, Tool>, encode: Json -> string, calls: seq<ToolCall>): (e: Exec)
    decreases |calls|
  {
    if calls == [] then Exec(Success([]), [])
    else
      var prior := ExecuteCalls(named, encode, calls[..|calls| - 1]);
      if prior.outcome.Failure? then prior
      else Step(named, encode, prior.outcome.value, prior.trace, calls[|calls| - 1])
  }

  /** The body of the loop for one call, after `done` replies and `trace` events. */
  function Step(named: map<string, Tool>, encode: Json -> string, done: seq<Message>,
                trace: seq<Event>, tc: ToolCall): Exec
  {
    if tc.name !in named then Exec(Failure(ToolNotFound(tc.name)), trace)
    else
      match named[tc.name](ArgsOf(tc))
      case Failure(reason) => Exec(Failure(ToolFailed(tc.name, reason)), trace + [Invocation(tc)])
      case Success(_) => Exec(Success(done + [Reply(named, encode, tc)]), trace + [Invocation(tc)])
  }

  /** When every call succeeds the loop produces one reply per call, in call
      order, each carrying its call's id and encoded result, and it invokes
      every call's tool exactly once, in call order, with the call's arguments.
      Conversely the loop succeeds only when every call does. */
  lemma {:induction false} ExecuteCallsSucceeds(named: map<string, Tool>, encode: Json -> string, calls: seq<ToolCall>)
    ensures ExecuteCalls(named, encode, calls).outcome.Success? <==>
            forall i :: 0 <= i < |calls| ==> Succeeds(named, calls[i])
    ensures ExecuteCalls(named, encode, calls).outcome.Success? ==>
            ExecuteCalls(named, encode, calls) == Exec(Success(Replies(named, encode, calls)), Invocations(calls))
    decreases |calls|
  {
    if calls != [] {
      var last := |calls| - 1;
      var front := calls[..last];
      ExecuteCallsSucceeds(named, encode, front);
      assert forall i :: 0 <= i < last ==> front[i] == calls[i];
      var prior := ExecuteCalls(named, encode, front);
      if prior.outcome.Success? && Succeeds(named, calls[last]) {
        assert Replies(named, encode, calls) == Replies(named, encode, front) + [Reply(named, encode, calls[last])];
        assert Invocations(calls) == Invocations(front) + [Invocation(calls[last])];
      }
    } else {
      assert Replies(named, encode, calls) == [] && Invocations(calls) == [];
    }
  }

  /** When some call fails, the loop ends with that first failing call's
      error, after invoking exactly the calls before it, plus the failing
      call itself when its tool exists (the invocation raised). */
  lemma {:induction false} ExecuteCallsFails(named: map<string, Tool>, encode: Json -> string, calls: seq<ToolCall>, k: nat)
    requires FirstFailure(named, calls, k)
    ensures ExecuteCalls(named, encode, calls).outcome == Failure(FailureOf(named, calls[k]))
    ensures ExecuteCalls(named, encode, calls).trace ==
            Invocations(calls[..k]) + (if calls[k].name in named then [Invocation(calls[k])] else [])
    decreases |calls|
  {
    var last := |calls| - 1;
    var front := calls[..last];
    assert forall i :: 0 <= i < last ==> front[i] == calls[i];
    if k < last {
      assert FirstFailure(named, front, k);
      ExecuteCallsFails(named, encode, front, k);
      assert front[..k] == calls[..k];
    } else {
      ExecuteCallsSucceeds(named, encode, front);
      assert front == calls[..k];
    }
  }

  /** The imperative form of the loop, as the source writes it: the replies
      accumulate in a list and the loop returns at the first failure. */
  method RunToolCalls(named: map<string, Tool>, encode: Json -> string, calls: seq<ToolCall>) returns (e: Exec)
    ensures e == ExecuteCalls(named, encode, calls)
    ensures e.outcome.Success? ==> |e.outcome.value| == |calls|
    ensures e.outcome.Success? ==> forall i :: 0 <= i < |calls| ==>
              e.outcome.value[i].ToolMessage? && e.outcome.value[i].toolCallId == calls[i].id
  {
    var replies: seq<Message> := [];
    var trace: seq<Event> := [];
    var i := 0;
    while i < |calls|
      invariant 0 <= i <= |calls|
      invariant ExecuteCalls(named, encode, calls[..i]) == Exec(Success(replies), trace)
    {
      var tc := calls[i];
      assert calls[..i + 1][..i] == calls[..i];
      if tc.name !in named {
        e := Exec(Failure(ToolNotFound(tc.name)), trace);
        StopsAtFailure(named, encode, calls, i + 1);
        return;
      }
      var outcome := named[tc.name](ArgsOf(tc));
      trace := trace + [Invoke(tc.name, ArgsOf(tc))];
      if outcome.Failure? {
        e := Exec(Failure(ToolFailed(tc.name, outcome.error)), trace);
        StopsAtFailure(named, encode, calls, i + 1);
        return;
      }
      replies := replies + [ToolMessage(encode(outcome.value), tc.id)];
      i := i + 1;
    }
    assert calls[..i] == calls;
    e := Exec(Success(replies), trace);
    ExecuteCallsSucceeds(named, encode, calls);
  }

  /** Once a prefix of the calls has failed, the whole loop has the same outcome
      and trace: nothing after the failing call runs. */
  lemma {:induction false} StopsAtFailure(named: map<string, Tool>, encode: Json -> string, calls: seq<ToolCall>, n: nat)
    requires n <= |calls|
    requires ExecuteCalls(named, encode, calls[..n]).outcome.Failure?
    ensures ExecuteCalls(named, encode, calls) == ExecuteCalls(named, encode, calls[..n])
    decreases |calls| - n
  {
    if n == |calls| {
      assert calls[..n] == calls;
    } else {
      var next := calls[..n + 1];
      assert next[..n] == calls[..n];
      StopsAtFailure(named, encode, calls, n + 1);
    }
  }

  /** How many LLM requests a trace records. */
  function LlmRequests(trace: seq<Event>): nat
    decreases |trace|
  {
    if trace == [] then 0
    else LlmRequests(trace[..|trace| - 1]) + (if trace[|trace| - 1].AskLlm? then 1 else 0)
  }

  /** `run_model`: one LLM request; if it asks for no tools its content is
      the answer; otherwise the requested calls run in order and the
      conversation, extended by the response and the tool messages, goes back
      to the LLM once, whose content is the answer whatever it asks for. */
  function RunTurn(llm: Llm, tools: seq<NamedTool>, encode: Json -> string, messages: seq<Message>): (t: Turn)
    ensures |t.trace| >= 1 && t.trace[0] == AskLlm(messages)
    ensures llm(messages).Failure? ==> t == Turn(Failure(LlmFailed(llm(messages).error)), [AskLlm(messages)])
    ensures llm(messages).Success? && PendingCalls(llm(messages).value) == [] ==>
              t == Turn(Success(llm(messages).value.content), [AskLlm(messages)])
  {
    var named := NamedTools(tools);
    match llm(messages)
    case Failure(reason) => Turn(Failure(LlmFailed(reason)), [AskLlm(messages)])
    case Success(response) =>
      var calls := PendingCalls(response);
      if calls == [] then Turn(Success(response.content), [AskLlm(messages)])
      else
        var exec := ExecuteCalls(named, encode, calls);
        match exec.outcome
        case Failure(err) => Turn(Failure(err), [AskLlm(messages)] + exec.trace)
        case Success(replies) =>
          var followUp := messages + [response] + replies;
          var trace := [AskLlm(messages)] + exec.trace + [AskLlm(followUp)];
          match llm(followUp)
          case Failure(reason) => Turn(Failure(LlmFailed(reason)), trace)
          case Success(final) => Turn(Success(final.content), trace)
  }

  /** A response with tool calls that all succeed: the tools are invoked in
      call order with the call's arguments, then the LLM is asked exactly once
      more, with the original messages, the response and one tool message per
      call (same order, same ids, encoded results) and nothing else; the
      answer is that second response's content even if it asks for more tools. */
  lemma {:induction false} TurnWithSuccessfulCalls(llm: Llm, tools: seq<NamedTool>, encode: Json -> string,
                                                   messages: seq<Message>)
    requires llm(messages).Success?
    requires PendingCalls(llm(messages).value) != []
    requires forall i :: 0 <= i < |PendingCalls(llm(messages).value)| ==>
               Succeeds(NamedTools(tools), PendingCalls(llm(messages).value)[i])
    ensures var response := llm(messages).value;
            var calls := PendingCalls(response);
            var followUp := messages + [response] + Replies(NamedTools(tools), encode, calls);
            && RunTurn(llm, tools, encode, messages).trace ==
                 [AskLlm(messages)] + Invocations(calls) + [AskLlm(followUp)]
            && RunTurn(llm, tools, encode, messages).result ==
                 (if llm(followUp).Success? then Success(llm(followUp).value.content)
                  else Failure(LlmFailed(llm(followUp).error)))
  {
    ExecuteCallsSucceeds(NamedTools(tools), encode, PendingCalls(llm(messages).value));
  }

  /** A response whose k-th call is the first to fail: the turn ends with
      that call's error (ToolNotFound when no listed tool has its name), the
      calls before it have been invoked, and the LLM is never asked again. */
  lemma {:induction false} TurnStopsAtFailingCall(llm: Llm, tools: seq<NamedTool>, encode: Json -> string,
                                                  messages: seq<Message>, k: nat)
    requires llm(messages).Success?
    requires FirstFailure(NamedTools(tools), PendingCalls(llm(messages).value), k)
    ensures var calls := PendingCalls(llm(messages).value);
            && RunTurn(llm, tools, encode, messages).result == Failure(FailureOf(NamedTools(tools), calls[k]))
            && RunTurn(llm, tools, encode, messages).trace ==
                 [AskLlm(messages)] + Invocations(calls[..k])
                 + (if Listed(tools, calls[k].name) then [Invocation(calls[k])] else [])
            && (!Listed(tools, calls[k].name) ==> RunTurn(llm, tools, encode, messages).result == Failure(ToolNotFound(calls[k].name)))
            && LlmRequests(RunTurn(llm, tools, encode, messages).trace) == 1
  {
    var calls := PendingCalls(llm(messages).value);
    var named := NamedTools(tools);
    ExecuteCallsFails(named, encode, calls, k);
    var t := RunTurn(llm, tools, encode, messages);
    OnlyFirstEventAsksLlm(t.trace);
  }

  /** The LLM is asked once or twice, never more; the first request is always
      the caller's messages and a second request is the last event. */
  lemma {:induction false} TurnAsksLlmAtMostTwice(llm: Llm, tools: seq<NamedTool>, encode: Json -> string,
                                                  messages: seq<Message>)
    ensures var t := RunTurn(llm, tools, encode, messages);
            && 1 <= LlmRequests(t.trace) <= 2
            && (LlmRequests(t.trace) == 2 ==> t.trace[|t.trace| - 1].AskLlm?)
            && forall i :: 0 < i < |t.trace| - 1 ==> t.trace[i].Invoke?
  {
    if llm(messages).Success? && PendingCalls(llm(messages).value) != [] {
      var calls := PendingCalls(llm(messages).value);
      var named := NamedTools(tools);
      if forall i :: 0 <= i < |calls| ==> Succeeds(named, calls[i]) {
        var followUp := messages + [llm(messages).value] + Replies(named, encode, calls);
        TurnWithSuccessfulCalls(llm, tools, encode, messages);
        TurnShapeCounts(AskLlm(messages), Invocations(calls), [AskLlm(followUp)]);
      } else {
        var k := FirstFailingIndex(named, calls);
        OneRequestWhenCallFails(llm, tools, encode, messages, k);
      }
    } else {
      TurnShapeCounts(AskLlm(messages), [], []);
      assert [AskLlm(messages)] + [] + [] == [AskLlm(messages)];
    }
  }

  /** The shape of a trace in which a call fails. */
  lemma {:induction false} OneRequestWhenCallFails(llm: Llm, tools: seq<NamedTool>, encode: Json -> string,
                                                   messages: seq<Message>, k: nat)
    requires llm(messages).Success?
    requires FirstFailure(NamedTools(tools), PendingCalls(llm(messages).value), k)
    ensures var trace := RunTurn(llm, tools, encode, messages).trace;
            && LlmRequests(trace) == 1
            && forall i :: 0 < i < |trace| - 1 ==> trace[i].Invoke?
  {
    var calls := PendingCalls(llm(messages).value);
    TurnStopsAtFailingCall(llm, tools, encode, messages, k);
    var trace := RunTurn(llm, tools, encode, messages).trace;
    var before := Invocations(calls[..k]);
    if Listed(tools, calls[k].name) {
      assert trace == [AskLlm(messages)] + (before + [Invocation(calls[k])]);
    } else {
      assert trace == [AskLlm(messages)] + before;
    }
  }

  /** A trace made of one LLM request, then invocations, then at most one
      more LLM request, records one LLM request per request in it. */
  lemma {:induction false} TurnShapeCounts(first: Event, middle: seq<Event>, tail: seq<Event>)
    requires first.AskLlm?
    requires forall i :: 0 <= i < |middle| ==> middle[i].Invoke?
    requires |tail| <= 1 && forall i :: 0 <= i < |tail| ==> tail[i].AskLlm?
    ensures var trace := [first] + middle + tail;
            && LlmRequests(trace) == 1 + |tail|
            && (|tail| == 1 ==> trace[|trace| - 1].AskLlm?)
            && forall i :: 0 < i < |trace| - 1 ==> trace[i].Invoke?
  {
    var head := [first] + middle;
    OnlyFirstEventAsksLlm(head);
    if |tail| == 1 {
      assert ([first] + middle + tail)[..|head|] == head;
    } else {
      assert [first] + middle + tail == head;
    }
  }

  /** The position of the first call that does not succeed, when one does not. */
  lemma {:induction false} FirstFailingIndex(named: map<string, Tool>, calls: seq<ToolCall>) returns (k: nat)
    requires exists i :: 0 <= i < |calls| && !Succeeds(named, calls[i])
    ensures FirstFailure(named, calls, k)
    decreases |calls|
  {
    if Succeeds(named, calls[0]) {
      var k' := FirstFailingIndex(named, calls[1..]);
      k := k' + 1;
    } else {
      k := 0;
    }
  }

  /** A trace that opens with an LLM request followed only by invocations
      records exactly one LLM request. */
  lemma {:induction false} OnlyFirstEventAsksLlm(trace: seq<Event>)
    requires |trace| >= 1 && trace[0].AskLlm?
    requires forall i :: 0 < i < |trace| ==> trace[i].Invoke?
    ensures LlmRequests(trace) == 1
    decreases |trace|
  {
    if |trace| > 1 {
      OnlyFirstEventAsksLlm(trace[..|trace| - 1]);
    }
  }
}
