/** The conversation orchestrator: a bounded loop that sends the projected history to
    the model, and either returns its answer or runs the tools it asks for and goes
    round again. The model is an oracle from the request to a reply or an error; the
    dispatcher is a parameter of the shape of `ToolRunner.RunTool` with its handlers
    fixed. */
module AgentRunner {
  import opened Wrappers
  import opened Json
  import opened ToolRunner

  const SystemPrompt: string := "你是一个个人助理（简化版 ClawdBot），具备以下能力：\n\n**系统能力**：执行 Shell 命令、读写文件、列出目录、使用浏览器（打开网页/填表/点击/提取内容）、读写持久化记忆。\n**应用能力**：邮件（列出收件箱、发送邮件）、旅行（搜索航班酒店、值机）、研究（网页搜索、文本摘要）、**提醒**（定时提醒）。\n\n**提醒（底层 cron）**：用户说「每天 9 点提醒我喝水」「每周一 8 点提醒开会」时，用 reminder_add 创建周期提醒（cron 表达式）；说「明天 10 点提醒我」时用 reminder_add 创建单次提醒（at 为 ISO 时间）。到期后会在当前会话自动发消息。可用 reminder_list 查看、reminder_remove 删除。Cron 五段格式：分 时 日 月 周，如 0 9 * * * = 每天 9:00。\n\n请根据用户请求选择合适的工具，按步骤执行并汇总结果。若无需工具，可直接回答。\n回复请简洁、有条理，必要时分点说明。"

  const MaxToolRounds: nat := 10
  const NoReplyText: string := "（无回复）"
  const MaxRoundsText: string := "（达到最大工具调用轮数，请简化请求后重试）"

  datatype Role = System | User | Assistant | Tool

  /** A tool call as the model requests it; `arguments` is JSON text. */
  datatype ToolCall = ToolCall(id: string, name: string, arguments: string)

  /** An entry of the conversation history. */
  datatype AgentMessage = AgentMessage(
    role: Role,
    content: string,
    toolCalls: Option<seq<ToolCall>>,
    toolCallId: Option<string>,
    name: Option<string>)

  /** A message as sent to the model: an assistant turn with its calls (an empty text
      sent as `null`), a tool result tied to its call, or a plain role and content. */
  datatype RequestMessage =
    | AssistantCalls(text: Option<string>, calls: seq<ToolCall>)
    | ToolResult(toolCallId: string, content: string)
    | Plain(role: Role, content: string)

  /** What the model answers: its text (empty when it has none) and its tool calls. */
  datatype Reply = Reply(text: string, toolCalls: seq<ToolCall>)

  /** The outcome of a run with the requests it sent to the model, in order. */
  datatype Trace = Trace(requests: seq<seq<RequestMessage>>, outcome: Result<string, JsError>)

  /** The history a run starts from. */
  function Initial(systemPrompt: string, userMessage: string): seq<AgentMessage> {
    [AgentMessage(System, systemPrompt, None, None, None),
     AgentMessage(User, userMessage, None, None, None)]
  }

  /** How one history entry is sent: a tool turn without a call id is dropped. */
  function Project(m: AgentMessage): (r: Option<RequestMessage>)
    ensures r.None? <==> m.role == Tool && m.toolCallId.None?
    ensures r.Some? && r.value.AssistantCalls? ==>
      m.role == Assistant && m.toolCalls == Some(r.value.calls) && |r.value.calls| > 0
      && (r.value.text.None? <==> m.content == "")
      && (r.value.text.Some? ==> r.value.text.value == m.content)
    ensures r.Some? && r.value.ToolResult? ==>
      m.role == Tool && m.toolCallId == Some(r.value.toolCallId) && r.value.content == m.content
    ensures r.Some? && r.value.Plain? ==>
      r.value.role == m.role && r.value.content == m.content && m.role != Tool
      && (m.role == Assistant ==> m.toolCalls.None? || |m.toolCalls.value| == 0)
  {
    if m.role == Assistant && m.toolCalls.Some? && |m.toolCalls.value| > 0 then
      Some(AssistantCalls(if m.content == "" then None else Some(m.content), m.toolCalls.value))
    else if m.role == Tool && m.toolCallId.Some? then
      Some(ToolResult(m.toolCallId.value, m.content))
    else if m.role != Tool then
      Some(Plain(m.role, m.content))
    else None
  }

  /** The request built from a history: each entry projected, in order. */
  function ProjectAll(history: seq<AgentMessage>): (r: seq<RequestMessage>)
    ensures |r| <= |history|
  {
    if |history| == 0 then []
    else
      var last := history[|history| - 1];
      ProjectAll(history[..|history| - 1]) + (match Project(last) case Some(q) => [q] case None => [])
  }

  /** Projection works entry by entry, so appending to the history appends to the
      request. */
  lemma {:induction false} ProjectAllAppend(a: seq<AgentMessage>, b: seq<AgentMessage>)
    ensures ProjectAll(a + b) == ProjectAll(a) + ProjectAll(b)
    decreases |b|
  {
    if |b| == 0 {
      assert a + b == a;
    } else {
      var b' := b[..|b| - 1];
      assert (a + b)[..|a + b| - 1] == a + b';
      assert (a + b)[|a + b| - 1] == b[|b| - 1];
      ProjectAllAppend(a, b');
    }
  }

  /** The first request is the system prompt and the user's message. */
  lemma InitialRequest(systemPrompt: string, userMessage: string)
    ensures ProjectAll(Initial(systemPrompt, userMessage)) == [Plain(System, systemPrompt), Plain(User, userMessage)]
  {
    var h := Initial(systemPrompt, userMessage);
    assert h[..1][..0] == [];
    assert h[..1] == [h[0]];
  }

  /** The tool turns for `calls` answered by `results`. */
  function ToolTurns(calls: seq<ToolCall>, results: seq<string>): (r: seq<AgentMessage>)
    requires |results| == |calls|
    ensures |r| == |calls|
  {
    if |calls| == 0 then []
    else
      var n := |calls| - 1;
      ToolTurns(calls[..n], results[..n])
        + [AgentMessage(Tool, results[n], None, Some(calls[n].id), Some(calls[n].name))]
  }

  /** One tool turn per call, in call order, each carrying its call's id and name. */
  lemma {:induction false} ToolTurnsInCallOrder(calls: seq<ToolCall>, results: seq<string>)
    requires |results| == |calls|
    ensures forall i :: 0 <= i < |calls| ==>
      ToolTurns(calls, results)[i] == AgentMessage(Tool, results[i], None, Some(calls[i].id), Some(calls[i].name))
  {
    if |calls| > 0 {
      var n := |calls| - 1;
      ToolTurnsInCallOrder(calls[..n], results[..n]);
    }
  }

  /** The entries one round appends: the assistant turn carrying all the calls, then
      the tool turns. */
  function RoundTurns(reply: Reply, results: seq<string>): (r: seq<AgentMessage>)
    requires |results| == |reply.toolCalls|
    ensures |r| == |reply.toolCalls| + 1
  {
    [AgentMessage(Assistant, reply.text, Some(reply.toolCalls), None, None)] + ToolTurns(reply.toolCalls, results)
  }

  /** A round with k calls appends k + 1 entries: first the assistant turn with all k
      calls, then one tool turn per call in call order, with that call's id and name. */
  lemma RoundAppendsCallsThenResults(reply: Reply, results: seq<string>)
    requires |results| == |reply.toolCalls|
    ensures var r := RoundTurns(reply, results);
      && r[0] == AgentMessage(Assistant, reply.text, Some(reply.toolCalls), None, None)
      && forall i :: 0 <= i < |results| ==>
           r[i + 1] == AgentMessage(Tool, results[i], None, Some(reply.toolCalls[i].id), Some(reply.toolCalls[i].name))
  {
    ToolTurnsInCallOrder(reply.toolCalls, results);
  }

  /** What the model is sent for a round with calls: the assistant turn with all its
      calls, then each result tied to the id of the call it answers, in call order. */
  lemma {:induction false} RoundRequest(reply: Reply, results: seq<string>)
    requires |results| == |reply.toolCalls| > 0
    ensures var r := ProjectAll(RoundTurns(reply, results));
      && |r| == |results| + 1
      && r[0] == AssistantCalls(if reply.text == "" then None else Some(reply.text), reply.toolCalls)
      && forall i :: 0 <= i < |results| ==> r[i + 1] == ToolResult(reply.toolCalls[i].id, results[i])
  {
    var r := ProjectAll(RoundTurns(reply, results));
    var p := ProjectAll(ToolTurns(reply.toolCalls, results));
    RoundRequestShape(reply, results);
    ToolTurnsRequest(reply.toolCalls, results);
    forall i | 0 <= i < |results| ensures r[i + 1] == ToolResult(reply.toolCalls[i].id, results[i]) {
      assert r[i + 1] == p[i];
    }
  }

  /** A round's request part is its assistant turn followed by its projected tool turns. */
  lemma RoundRequestShape(reply: Reply, results: seq<string>)
    requires |results| == |reply.toolCalls| > 0
    ensures ProjectAll(RoundTurns(reply, results)) ==
      [AssistantCalls(if reply.text == "" then None else Some(reply.text), reply.toolCalls)]
      + ProjectAll(ToolTurns(reply.toolCalls, results))
  {
    var head := [AgentMessage(Assistant, reply.text, Some(reply.toolCalls), None, None)];
    ProjectAllAppend(head, ToolTurns(reply.toolCalls, results));
    assert head[..0] == [];
  }

  /** Each tool turn of a round reaches the next request as the result for its call. */
  lemma ToolTurnsRequest(calls: seq<ToolCall>, results: seq<string>)
    requires |results| == |calls|
    ensures var r := ProjectAll(ToolTurns(calls, results));
      |r| == |calls| && forall i :: 0 <= i < |calls| ==> r[i] == ToolResult(calls[i].id, results[i])
  {
    var t := ToolTurns(calls, results);
    ToolTurnsInCallOrder(calls, results);
    ProjectAllTotal(t);
  }

  /** When every entry of a history is sent, the request is the entries' projections,
      index by index. */
  lemma {:induction false} ProjectAllTotal(h: seq<AgentMessage>)
    requires forall i :: 0 <= i < |h| ==> Project(h[i]).Some?
    ensures |ProjectAll(h)| == |h|
    ensures forall i :: 0 <= i < |h| ==> ProjectAll(h)[i] == Project(h[i]).value
  {
    if |h| > 0 {
      var n := |h| - 1;
      var prefix := h[..n];
      assert h == prefix + [h[n]];
      ProjectAllTotal(prefix);
      ProjectAllSnoc(prefix, h[n]);
      var p, x := ProjectAll(prefix), Project(h[n]).value;
      assert ProjectAll(h) == p + [x];
      forall i | 0 <= i < |h| ensures (p + [x])[i] == Project(h[i]).value {
        if i < n {
          assert (p + [x])[i] == p[i] == Project(prefix[i]).value;
        }
      }
    }
  }

  /** Appending one entry to a history appends its projection, if any, to the request. */
  lemma ProjectAllSnoc(h: seq<AgentMessage>, m: AgentMessage)
    ensures ProjectAll(h + [m]) == ProjectAll(h) + (if Project(m).Some? then [Project(m).value] else [])
  {
    assert (h + [m])[..|h|] == h;
  }

  /** The arguments a call runs with: its JSON text parsed, or `{}` when that fails. */
  function ArgumentsOf(call: ToolCall, parseJson: string -> Option<JsonValue>): (r: JsonValue)
    ensures parseJson(call.arguments).None? ==> r == JObject(map[])
    ensures parseJson(call.arguments).Some? ==> r == parseJson(call.arguments).value
  {
    match parseJson(call.arguments)
    case Some(v) => v
    case None => JObject(map[])
  }

  /** What running one call gives. */
  function CallOutcome(call: ToolCall, runTool: (string, JsonValue, Context) -> ToolOutcome,
                       parseJson: string -> Option<JsonValue>, ctx: Context): ToolOutcome
  {
    runTool(call.name, ArgumentsOf(call, parseJson), ctx)
  }

  /** The calls of one round run one after another; the first rejection ends the run. */
  function RunCalls(calls: seq<ToolCall>, runTool: (string, JsonValue, Context) -> ToolOutcome,
                    parseJson: string -> Option<JsonValue>, ctx: Context): (r: Result<seq<string>, JsError>)
    ensures r.Ok? ==> |r.value| == |calls|
  {
    if |calls| == 0 then Ok([])
    else
      var n := |calls| - 1;
      match RunCalls(calls[..n], runTool, parseJson, ctx)
      case Err(e) => Err(e)
      case Ok(results) =>
        match CallOutcome(calls[n], runTool, parseJson, ctx)
        case Propagated(e) => Err(e)
        case Returned(t) => Ok(results + [t])
  }

  /** The round's results are the calls' answers in call order when every call
      answers; otherwise the round fails with the first rejection. */
  lemma {:induction false} RunCallsFirstRejection(calls: seq<ToolCall>,
                                                  runTool: (string, JsonValue, Context) -> ToolOutcome,
                                                  parseJson: string -> Option<JsonValue>, ctx: Context)
    ensures var r := RunCalls(calls, runTool, parseJson, ctx);
      && (r.Ok? <==> forall i :: 0 <= i < |calls| ==> CallOutcome(calls[i], runTool, parseJson, ctx).Returned?)
      && (r.Ok? ==> forall i :: 0 <= i < |calls| ==> CallOutcome(calls[i], runTool, parseJson, ctx) == Returned(r.value[i]))
      && (r.Err? ==> exists i :: 0 <= i < |calls| && CallOutcome(calls[i], runTool, parseJson, ctx) == Propagated(r.error)
                       && forall j :: 0 <= j < i ==> CallOutcome(calls[j], runTool, parseJson, ctx).Returned?)
  {
    if |calls| > 0 {
      var n := |calls| - 1;
      var init := calls[..n];
      RunCallsFirstRejection(init, runTool, parseJson, ctx);
      var r := RunCalls(calls, runTool, parseJson, ctx);
      var prev := RunCalls(init, runTool, parseJson, ctx);
      assert forall i :: 0 <= i < n ==> init[i] == calls[i];
      if prev.Err? {
        var i :| 0 <= i < n && CallOutcome(init[i], runTool, parseJson, ctx) == Propagated(prev.error)
          && forall j :: 0 <= j < i ==> CallOutcome(init[j], runTool, parseJson, ctx).Returned?;
        assert CallOutcome(calls[i], runTool, parseJson, ctx) == Propagated(r.error);
      } else if r.Err? {
        assert CallOutcome(calls[n], runTool, parseJson, ctx) == Propagated(r.error);
      } else {
        assert r.value == prev.value + [r.value[n]];
      }
    }
  }

  /** The run from `history` at round `round`: what `runAgent` returns, or the error it
      rejects with, and every request it sends. */
  function Run(history: seq<AgentMessage>, round: nat, chat: seq<RequestMessage> -> Result<Reply, JsError>,
               runTool: (string, JsonValue, Context) -> ToolOutcome,
               parseJson: string -> Option<JsonValue>, ctx: Context): (r: Trace)
    requires round <= MaxToolRounds
    ensures |r.requests| <= MaxToolRounds - round
    ensures r.outcome.Ok? ==> r.outcome.value != ""
    ensures round < MaxToolRounds ==> |r.requests| > 0 && r.requests[0] == ProjectAll(history)
    decreases MaxToolRounds - round
  {
    if round == MaxToolRounds then Trace([], Ok(MaxRoundsText))
    else
      var request := ProjectAll(history);
      match chat(request)
      case Err(e) => Trace([request], Err(e))
      case Ok(reply) =>
        if |reply.toolCalls| == 0 then
          Trace([request], Ok(if reply.text == "" then NoReplyText else reply.text))
        else
          match RunCalls(reply.toolCalls, runTool, parseJson, ctx)
          case Err(e) => Trace([request], Err(e))
          case Ok(results) =>
            var next := Run(history + RoundTurns(reply, results), round + 1, chat, runTool, parseJson, ctx);
            Trace([request] + next.requests, next.outcome)
  }

  /** A round that ends the run sends one request: the model's rejection is the run's
      rejection, a reply without tool calls is its answer ("（无回复）" for empty text),
      and a rejecting tool handler rejects the run. */
  lemma RunEndsEarly(history: seq<AgentMessage>, round: nat,
                     chat: seq<RequestMessage> -> Result<Reply, JsError>,
                     runTool: (string, JsonValue, Context) -> ToolOutcome,
                     parseJson: string -> Option<JsonValue>, ctx: Context)
    requires round < MaxToolRounds
    ensures var request := ProjectAll(history);
      var r := Run(history, round, chat, runTool, parseJson, ctx);
      && (chat(request).Err? ==> r == Trace([request], Err(chat(request).error)))
      && (chat(request).Ok? && |chat(request).value.toolCalls| == 0 ==>
            var text := chat(request).value.text;
            r == Trace([request], Ok(if text == "" then NoReplyText else text)))
      && (chat(request).Ok? && |chat(request).value.toolCalls| > 0
          && RunCalls(chat(request).value.toolCalls, runTool, parseJson, ctx).Err? ==>
            r == Trace([request], Err(RunCalls(chat(request).value.toolCalls, runTool, parseJson, ctx).error)))
  {
  }

  /** `b` starts with `a`. */
  ghost predicate Extends(a: seq<RequestMessage>, b: seq<RequestMessage>) {
    |a| <= |b| && b[..|a|] == a
  }

  /** Each request extends the one before it. */
  ghost predicate EachExtendsPrevious(requests: seq<seq<RequestMessage>>) {
    forall i :: 0 <= i < |requests| - 1 ==> Extends(requests[i], requests[i + 1])
  }

  lemma ExtendsCons(request: seq<RequestMessage>, rest: seq<seq<RequestMessage>>)
    requires EachExtendsPrevious(rest)
    requires |rest| > 0 ==> Extends(request, rest[0])
    ensures EachExtendsPrevious([request] + rest)
  {
    var reqs := [request] + rest;
    forall i | 0 <= i < |reqs| - 1 ensures Extends(reqs[i], reqs[i + 1]) {
      if i > 0 {
        assert reqs[i] == rest[i - 1] && reqs[i + 1] == rest[i];
      }
    }
  }

  /** The history only grows, so each request the run sends extends the one before. */
  lemma {:induction false} RequestsExtend(history: seq<AgentMessage>, round: nat,
                                          chat: seq<RequestMessage> -> Result<Reply, JsError>,
                                          runTool: (string, JsonValue, Context) -> ToolOutcome,
                                          parseJson: string -> Option<JsonValue>, ctx: Context)
    requires round <= MaxToolRounds
    ensures EachExtendsPrevious(Run(history, round, chat, runTool, parseJson, ctx).requests)
    decreases MaxToolRounds - round
  {
    if round < MaxToolRounds {
      var reply := chat(ProjectAll(history));
      if reply.Ok? && |reply.value.toolCalls| > 0
         && RunCalls(reply.value.toolCalls, runTool, parseJson, ctx).Ok? {
        var turns := RoundTurns(reply.value, RunCalls(reply.value.toolCalls, runTool, parseJson, ctx).value);
        RequestsExtend(history + turns, round + 1, chat, runTool, parseJson, ctx);
        RequestsExtendStep(history, round, chat, runTool, parseJson, ctx);
      } else {
        RunEndsEarly(history, round, chat, runTool, parseJson, ctx);
      }
    }
  }

  /** One continuing round of `RequestsExtend`: the next request projects a longer history. */
  lemma RequestsExtendStep(history: seq<AgentMessage>, round: nat,
                           chat: seq<RequestMessage> -> Result<Reply, JsError>,
                           runTool: (string, JsonValue, Context) -> ToolOutcome,
                           parseJson: string -> Option<JsonValue>, ctx: Context)
    requires round < MaxToolRounds
    requires chat(ProjectAll(history)).Ok? && |chat(ProjectAll(history)).value.toolCalls| > 0
    requires RunCalls(chat(ProjectAll(history)).value.toolCalls, runTool, parseJson, ctx).Ok?
    requires var reply := chat(ProjectAll(history)).value;
      var turns := RoundTurns(reply, RunCalls(reply.toolCalls, runTool, parseJson, ctx).value);
      EachExtendsPrevious(Run(history + turns, round + 1, chat, runTool, parseJson, ctx).requests)
    ensures EachExtendsPrevious(Run(history, round, chat, runTool, parseJson, ctx).requests)
  {
    var request := ProjectAll(history);
    var reply := chat(request).value;
    var turns := RoundTurns(reply, RunCalls(reply.toolCalls, runTool, parseJson, ctx).value);
    var next := Run(history + turns, round + 1, chat, runTool, parseJson, ctx);
    RunContinues(history, round, chat, runTool, parseJson, ctx);
    if |next.requests| > 0 {
      ProjectAllAppend(history, turns);
      PrefixOfAppend(request, ProjectAll(turns));
    }
    ExtendsCons(request, next.requests);
  }

  /** A round whose tools all return sends its request and then continues from the
      extended history. */
  lemma RunContinues(history: seq<AgentMessage>, round: nat,
                     chat: seq<RequestMessage> -> Result<Reply, JsError>,
                     runTool: (string, JsonValue, Context) -> ToolOutcome,
                     parseJson: string -> Option<JsonValue>, ctx: Context)
    requires round < MaxToolRounds
    requires chat(ProjectAll(history)).Ok? && |chat(ProjectAll(history)).value.toolCalls| > 0
    requires RunCalls(chat(ProjectAll(history)).value.toolCalls, runTool, parseJson, ctx).Ok?
    ensures var reply := chat(ProjectAll(history)).value;
      var results := RunCalls(reply.toolCalls, runTool, parseJson, ctx).value;
      var next := Run(history + RoundTurns(reply, results), round + 1, chat, runTool, parseJson, ctx);
      Run(history, round, chat, runTool, parseJson, ctx) == Trace([ProjectAll(history)] + next.requests, next.outcome)
  {
  }

  lemma PrefixOfAppend(a: seq<RequestMessage>, b: seq<RequestMessage>)
    ensures Extends(a, a + b)
  {
    assert (a + b)[..|a|] == a;
  }

  /** When the model asks for tools on every round and no tool rejects, the run sends
      exactly the remaining number of requests and gives up with the fixed text. */
  lemma {:induction false} ExhaustedRounds(history: seq<AgentMessage>, round: nat,
                                           chat: seq<RequestMessage> -> Result<Reply, JsError>,
                                           runTool: (string, JsonValue, Context) -> ToolOutcome,
                                           parseJson: string -> Option<JsonValue>, ctx: Context)
    requires round <= MaxToolRounds
    requires forall req :: chat(req).Ok? && |chat(req).value.toolCalls| > 0
    requires forall name, args, c :: runTool(name, args, c).Returned?
    ensures Run(history, round, chat, runTool, parseJson, ctx).outcome == Ok(MaxRoundsText)
    ensures |Run(history, round, chat, runTool, parseJson, ctx).requests| == MaxToolRounds - round
    decreases MaxToolRounds - round
  {
    if round < MaxToolRounds {
      assert chat(ProjectAll(history)).Ok? && |chat(ProjectAll(history)).value.toolCalls| > 0;
      var reply := chat(ProjectAll(history)).value;
      var calls := RunCalls(reply.toolCalls, runTool, parseJson, ctx);
      assert calls.Ok? by {
        RunCallsFirstRejection(reply.toolCalls, runTool, parseJson, ctx);
      }
      var next := Run(history + RoundTurns(reply, calls.value), round + 1, chat, runTool, parseJson, ctx);
      assert next.outcome == Ok(MaxRoundsText) && |next.requests| == MaxToolRounds - round - 1 by {
        ExhaustedRounds(history + RoundTurns(reply, calls.value), round + 1, chat, runTool, parseJson, ctx);
      }
      assert Run(history, round, chat, runTool, parseJson, ctx) == Trace([ProjectAll(history)] + next.requests, next.outcome) by {
        RunContinues(history, round, chat, runTool, parseJson, ctx);
      }
    }
  }

  /** `projectRequest` inside `runAgent`: the inner loop over the history. */
  method BuildRequest(messages: seq<AgentMessage>) returns (request: seq<RequestMessage>)
    ensures request == ProjectAll(messages)
  {
    request := [];
    var i := 0;
    while i < |messages|
      invariant 0 <= i <= |messages|
      invariant request == ProjectAll(messages[..i])
    {
      var m := messages[i];
      assert messages[..i + 1][..i] == messages[..i];
      if m.role == Assistant && m.toolCalls.Some? && |m.toolCalls.value| > 0 {
        request := request + [AssistantCalls(if m.content == "" then None else Some(m.content), m.toolCalls.value)];
      } else if m.role == Tool && m.toolCallId.Some? {
        request := request + [ToolResult(m.toolCallId.value, m.content)];
      } else if m.role != Tool {
        request := request + [Plain(m.role, m.content)];
      }
      i := i + 1;
    }
    assert messages[..i] == messages;
  }

  /** The inner loop of `runAgent` over one round's calls: run each in turn and record
      its tool turn; a rejection ends the loop and the run. */
  method CallTools(calls: seq<ToolCall>, runTool: (string, JsonValue, Context) -> ToolOutcome,
                   parseJson: string -> Option<JsonValue>, ctx: Context)
    returns (r: Result<seq<AgentMessage>, JsError>)
    ensures RunCalls(calls, runTool, parseJson, ctx).Ok? ==>
      r == Ok(ToolTurns(calls, RunCalls(calls, runTool, parseJson, ctx).value))
    ensures RunCalls(calls, runTool, parseJson, ctx).Err? ==> r == Err(RunCalls(calls, runTool, parseJson, ctx).error)
  {
    var turns: seq<AgentMessage> := [];
    ghost var results: seq<string> := [];
    var i := 0;
    while i < |calls|
      invariant 0 <= i <= |calls|
      invariant RunCalls(calls[..i], runTool, parseJson, ctx) == Ok(results)
      invariant turns == ToolTurns(calls[..i], results)
    {
      var call := calls[i];
      assert calls[..i + 1][..i] == calls[..i];
      var outcome := runTool(call.name, ArgumentsOf(call, parseJson), ctx);
      if outcome.Propagated? {
        RunCallsStopsAtError(calls, i + 1, runTool, parseJson, ctx);
        return Err(outcome.error);
      }
      turns := turns + [AgentMessage(Tool, outcome.text, None, Some(call.id), Some(call.name))];
      results := results + [outcome.text];
      i := i + 1;
    }
    assert calls[..i] == calls;
    return Ok(turns);
  }

  /** The loop of `runAgent` from the history `[systemPrompt, userMessage]`: at most
      `MaxToolRounds` rounds of asking the model and running the tools it calls. */
  method RunFrom(systemPrompt: string, userId: string, chatId: string, userMessage: string,
                  chat: seq<RequestMessage> -> Result<Reply, JsError>,
                  runTool: (string, JsonValue, Context) -> ToolOutcome,
                  parseJson: string -> Option<JsonValue>)
    returns (r: Result<string, JsError>, ghost requests: seq<seq<RequestMessage>>)
    ensures r == Run(Initial(systemPrompt, userMessage), 0, chat, runTool, parseJson, Context(userId, chatId)).outcome
    ensures requests == Run(Initial(systemPrompt, userMessage), 0, chat, runTool, parseJson, Context(userId, chatId)).requests
  {
    var ctx := Context(userId, chatId);
    var messages := Initial(systemPrompt, userMessage);
    var round := 0;
    requests := [];
    while round < MaxToolRounds
      invariant 0 <= round <= MaxToolRounds
      invariant Run(messages, round, chat, runTool, parseJson, ctx).outcome
        == Run(Initial(systemPrompt, userMessage), 0, chat, runTool, parseJson, ctx).outcome
      invariant requests + Run(messages, round, chat, runTool, parseJson, ctx).requests
        == Run(Initial(systemPrompt, userMessage), 0, chat, runTool, parseJson, ctx).requests
    {
      var request := BuildRequest(messages);
      ghost var rest := Run(messages, round, chat, runTool, parseJson, ctx).requests;
      assert rest[0] == request;
      requests := requests + [request];
      var response := chat(request);
      if response.Err? {
        assert rest == [request];
        return Err(response.error), requests;
      }
      var reply := response.value;
      if |reply.toolCalls| == 0 {
        assert rest == [request];
        return Ok(if reply.text == "" then NoReplyText else reply.text), requests;
      }
      var toolTurns := CallTools(reply.toolCalls, runTool, parseJson, ctx);
      if toolTurns.Err? {
        assert rest == [request];
        return Err(toolTurns.error), requests;
      }
      RunContinues(messages, round, chat, runTool, parseJson, ctx);
      messages := messages + ([AgentMessage(Assistant, reply.text, Some(reply.toolCalls), None, None)] + toolTurns.value);
      round := round + 1;
      assert rest == [request] + Run(messages, round, chat, runTool, parseJson, ctx).requests;
    }
    return Ok(MaxRoundsText), requests;
  }

  /** `runAgent({userId, chatId, userMessage})`: the run that starts from the system
      prompt and the user's message. */
  method RunAgent(userId: string, chatId: string, userMessage: string,
                  chat: seq<RequestMessage> -> Result<Reply, JsError>,
                  runTool: (string, JsonValue, Context) -> ToolOutcome,
                  parseJson: string -> Option<JsonValue>)
    returns (r: Result<string, JsError>)
    ensures r == Run(Initial(SystemPrompt, userMessage), 0, chat, runTool, parseJson, Context(userId, chatId)).outcome
  {
    ghost var requests;
    r, requests := RunFrom(SystemPrompt, userId, chatId, userMessage, chat, runTool, parseJson);
  }

  /** A rejection among the first `n` calls is the round's rejection. */
  lemma {:induction false} RunCallsStopsAtError(calls: seq<ToolCall>, n: nat,
                                                runTool: (string, JsonValue, Context) -> ToolOutcome,
                                                parseJson: string -> Option<JsonValue>, ctx: Context)
    requires n <= |calls| && RunCalls(calls[..n], runTool, parseJson, ctx).Err?
    ensures RunCalls(calls, runTool, parseJson, ctx) == RunCalls(calls[..n], runTool, parseJson, ctx)
    decreases |calls|
  {
    if n < |calls| {
      var m := |calls| - 1;
      assert calls[..m][..n] == calls[..n];
      RunCallsStopsAtError(calls[..m], n, runTool, parseJson, ctx);
    } else {
      assert calls[..n] == calls;
    }
  }
}
