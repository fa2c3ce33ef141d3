/** The tool dispatcher: it coerces the loosely typed arguments the language model sends,
    validates the browser action, answers unknown names with a fixed text and hands
    everything else to the tool's handler. Handlers are effects outside this model: each
    call is an `Invocation`, and what its promise settles to is an oracle. */
module ToolRunner {
  import opened Wrappers
  import opened Json
  import opened JsText
  import ToolDefinitions
  import Research

  /** The user and chat a tool runs on behalf of. */
  datatype Context = Context(userId: string, chatId: string)

  /** A JavaScript error, seen through its `message`. */
  datatype JsError = JsError(message: string)

  /** One handler call with its coerced arguments. */
  datatype Invocation =
    | RunShell(command: string, cwd: Option<string>)
    | ReadFileContent(path: string, encoding: string)
    | WriteFileContent(path: string, content: string, append: bool)
    | ListDir(path: string)
    | Browse(action: string, url: Option<string>, selector: Option<string>, fillValue: Option<string>)
    | MemoryGet(userId: string, lookupKey: Option<string>)
    | MemorySet(userId: string, key: string, value: string)
    | EmailList(limit: int)
    | EmailRead(index: int)
    | EmailSend(to: string, subject: string, body: string)
    | TravelSearch(query: string)
    | TravelCheckin(airlineHint: Option<string>, bookingRef: Option<string>)
    | ResearchSearch(query: string, numResults: int)
    | ResearchSummarize(text: string, maxLength: int)

  /** What a handler's promise settles to. */
  datatype Settled = Resolved(text: string) | Rejected(error: JsError)

  /** The synchronous part of the dispatcher: a text to return without calling any
      handler, a handler to call, or an error thrown while reading the arguments. */
  datatype Step = Answer(text: string) | Call(invocation: Invocation) | Throw(error: JsError)

  /** What the caller of the dispatcher sees: a string, or the rejection of a handler
      promise that was returned without being awaited. */
  datatype ToolOutcome = Returned(text: string) | Propagated(error: JsError)

  /** The dispatched names, each with the argument its case reads first. */
  const FirstRead: map<string, string> := map[
    "shell_exec" := "command",
    "read_file" := "path",
    "write_file" := "path",
    "list_dir" := "path",
    "browse" := "action",
    "memory_get" := "key",
    "memory_set" := "key",
    "email_list" := "limit",
    "email_read" := "index",
    "email_send" := "to",
    "travel_search" := "query",
    "travel_checkin" := "airline_hint",
    "research_search" := "query",
    "research_summarize" := "text"
  ]

  /** The properties each case passes through `String`, in the order it reads them. */
  const Coerced: map<string, seq<string>> := map[
    "shell_exec" := ["command", "cwd"],
    "read_file" := ["path", "encoding"],
    "write_file" := ["path", "content"],
    "list_dir" := ["path"],
    "browse" := ["action", "url", "selector", "value"],
    "memory_get" := ["key"],
    "memory_set" := ["key", "value"],
    "email_list" := ["limit"],
    "email_read" := ["index"],
    "email_send" := ["to", "subject", "body"],
    "travel_search" := ["query"],
    "travel_checkin" := ["airline_hint", "booking_ref"],
    "research_search" := ["query", "num_results"],
    "research_summarize" := ["text", "max_length"]
  ]

  const ValidActions: seq<string> := ["navigate", "extract", "click", "fill"]

  const InvalidActionText: string := "无效的 action，应为: navigate, extract, click, fill"

  const MemorySavedText: string := "已保存记忆"

  function UnknownToolText(name: string): string {
    "未知工具: " + name
  }

  /** The string the `catch` turns an error into. */
  function CaughtText(e: JsError): string {
    "工具执行异常: " + e.message
  }

  /** The TypeError JavaScript raises when reading `key` of `null`. */
  function NullRead(key: string): JsError {
    JsError("Cannot read properties of null (reading '" + key + "')")
  }

  /** The TypeError `String` raises for an object whose own `toString` is not callable. */
  const Unconvertible: JsError := JsError("Cannot convert object to primitive value")

  /** `String(args[key])` does not throw: the property is absent, `null` or stringable. */
  predicate StringableProp(args: JsonValue, key: string) {
    match Present(args, key)
    case None => true
    case Some(v) => Stringable(v)
  }

  /** Every property the case for `name` passes through `String` can be converted, case
      by case as the `switch` reads them (`CoercibleMatchesTable` ties this to `Coerced`). */
  predicate Coercible(name: string, args: JsonValue) {
    match name
    case "shell_exec" => StringableProp(args, "command") && StringableProp(args, "cwd")
    case "read_file" => StringableProp(args, "path") && StringableProp(args, "encoding")
    case "write_file" => StringableProp(args, "path") && StringableProp(args, "content")
    case "list_dir" => StringableProp(args, "path")
    case "browse" =>
      StringableProp(args, "action") && StringableProp(args, "url")
      && StringableProp(args, "selector") && StringableProp(args, "value")
    case "memory_get" => StringableProp(args, "key")
    case "memory_set" => StringableProp(args, "key") && StringableProp(args, "value")
    case "email_list" => StringableProp(args, "limit")
    case "email_read" => StringableProp(args, "index")
    case "email_send" =>
      StringableProp(args, "to") && StringableProp(args, "subject") && StringableProp(args, "body")
    case "travel_search" => StringableProp(args, "query")
    case "travel_checkin" => StringableProp(args, "airline_hint") && StringableProp(args, "booking_ref")
    case "research_search" => StringableProp(args, "query") && StringableProp(args, "num_results")
    case "research_summarize" => StringableProp(args, "text") && StringableProp(args, "max_length")
    case _ => true
  }

  /** The reads the `switch` checks are exactly the ones the table lists. */
  lemma CoercibleMatchesTable(name: string, args: JsonValue)
    ensures Coercible(name, args) <==>
      (name in Coerced ==> forall k :: k in Coerced[name] ==> StringableProp(args, k))
  {
  }

  /** Arguments all of whose properties are stringable can be read by every case. */
  lemma CoercibleWhenStringable(name: string, args: JsonValue)
    requires forall k :: StringableProp(args, k)
    ensures Coercible(name, args)
  {
  }

  /** `String(args[key] ?? "")`. */
  function RequiredString(args: JsonValue, key: string): string
    requires StringableProp(args, key)
  {
    match Present(args, key)
    case None => ""
    case Some(v) => ToJsString(v)
  }

  /** `args[key] != null ? String(args[key]) : undefined`. */
  function OptionalString(args: JsonValue, key: string): Option<string>
    requires StringableProp(args, key)
  {
    match Present(args, key)
    case None => None
    case Some(v) => Some(ToJsString(v))
  }

  /** `args[key] != null ? parseInt(String(args[key]), 10) : d`, then `isNaN(n) ? d : n`. */
  function IntOr(args: JsonValue, key: string, d: int): int
    requires StringableProp(args, key)
  {
    match Present(args, key)
    case None => d
    case Some(v) => ParseInt(ToJsString(v)).GetOr(d)
  }

  /** `parseInt(args[key] != null ? String(args[key]) : String(d), 10) || d`: the parsed
      text of a present property, or `d` itself when the property is absent
      (`NumberOrAsWritten` shows the default text parses back to `d`). */
  function NumberOr(args: JsonValue, key: string, d: int): int
    requires StringableProp(args, key)
  {
    match OptionalString(args, key)
    case None => d
    case Some(t) => ParsedOr(t, d)
  }

  /** `NumberOr` is the coercion as the handler writes it, default text included. */
  lemma NumberOrAsWritten(args: JsonValue, key: string, d: int)
    requires StringableProp(args, key)
    ensures NumberOr(args, key, d) == ParsedOr(OptionalString(args, key).GetOr(IntToString(d)), d)
  {
    ParsedOrOfIntToString(d, d);
  }

  /** The `switch` with its coercions, for arguments whose properties can be read and
      converted. */
  function Switch(name: string, args: JsonValue, ctx: Context): Step
    requires Coercible(name, args)
  {
    match name
    case "shell_exec" =>
      Call(RunShell(RequiredString(args, "command"), OptionalString(args, "cwd")))
    case "read_file" =>
      Call(ReadFileContent(RequiredString(args, "path"), OptionalString(args, "encoding").GetOr("utf8")))
    case "write_file" =>
      var append := "append" in Fields(args) && Fields(args)["append"] in {JBool(true), JString("true")};
      Call(WriteFileContent(RequiredString(args, "path"), RequiredString(args, "content"), append))
    case "list_dir" =>
      Call(ListDir(RequiredString(args, "path")))
    case "browse" =>
      var action := RequiredString(args, "action");
      if action !in ValidActions then Answer(InvalidActionText)
      else Call(Browse(action, OptionalString(args, "url"), OptionalString(args, "selector"),
                       OptionalString(args, "value")))
    case "memory_get" =>
      Call(MemoryGet(ctx.userId, OptionalString(args, "key")))
    case "memory_set" =>
      Call(MemorySet(ctx.userId, RequiredString(args, "key"), RequiredString(args, "value")))
    case "email_list" =>
      Call(EmailList(IntOr(args, "limit", 10)))
    case "email_read" =>
      Call(EmailRead(IntOr(args, "index", 0)))
    case "email_send" =>
      Call(EmailSend(RequiredString(args, "to"), RequiredString(args, "subject"), RequiredString(args, "body")))
    case "travel_search" =>
      Call(TravelSearch(RequiredString(args, "query")))
    case "travel_checkin" =>
      Call(TravelCheckin(OptionalString(args, "airline_hint"), OptionalString(args, "booking_ref")))
    case "research_search" =>
      Call(ResearchSearch(RequiredString(args, "query"), NumberOr(args, "num_results", 5)))
    case "research_summarize" =>
      Call(ResearchSummarize(RequiredString(args, "text"), NumberOr(args, "max_length", 500)))
    case _ =>
      Answer(UnknownToolText(name))
  }

  /** The dispatcher up to the point where a handler is called: with `null` arguments
      every case throws at its first property read, and a case that passes an
      unconvertible property through `String` throws before it calls anything. */
  function Plan(name: string, args: JsonValue, ctx: Context): Step
  {
    if name in FirstRead && args.JNull? then Throw(NullRead(FirstRead[name]))
    else if !Coercible(name, args) then Throw(Unconvertible)
    else Switch(name, args, ctx)
  }

  /** `runTool(name, args, context)`. Only `memory_set` awaits its handler, so only its
      rejection reaches the `catch`; every other handler's promise is returned as it is.
      `researchSummarize` is synchronous and total, so it is computed here rather than
      handed to the handler oracle. */
  function RunTool(name: string, args: JsonValue, ctx: Context, handler: Invocation -> Settled): ToolOutcome
  {
    match Plan(name, args, ctx)
    case Answer(t) => Returned(t)
    case Throw(e) => Returned(CaughtText(e))
    case Call(inv) =>
      if inv.ResearchSummarize? then Returned(Research.Summarize(inv.text, inv.maxLength))
      else match handler(inv)
      case Resolved(t) => if inv.MemorySet? then Returned(MemorySavedText) else Returned(t)
      case Rejected(e) => if inv.MemorySet? then Returned(CaughtText(e)) else Propagated(e)
  }

  /** Arguments other than `null` whose coerced properties are stringable never make the
      reads throw. */
  lemma PlanOfReadable(name: string, args: JsonValue, ctx: Context)
    requires !args.JNull? && Coercible(name, args)
    ensures Plan(name, args, ctx) == Switch(name, args, ctx)
  {
  }

  lemma SwitchEmailList(args: JsonValue, ctx: Context)
    requires Coercible("email_list", args)
    ensures Switch("email_list", args, ctx) == Call(EmailList(IntOr(args, "limit", 10)))
  {
  }

  lemma SwitchEmailRead(args: JsonValue, ctx: Context)
    requires Coercible("email_read", args)
    ensures Switch("email_read", args, ctx) == Call(EmailRead(IntOr(args, "index", 0)))
  {
  }

  lemma SwitchResearchSearch(args: JsonValue, ctx: Context)
    requires Coercible("research_search", args)
    ensures Switch("research_search", args, ctx) == Call(ResearchSearch(RequiredString(args, "query"),
      NumberOr(args, "num_results", 5)))
  {
  }

  lemma SwitchResearchSummarize(args: JsonValue, ctx: Context)
    requires Coercible("research_summarize", args)
    ensures Switch("research_summarize", args, ctx) == Call(ResearchSummarize(RequiredString(args, "text"),
      NumberOr(args, "max_length", 500)))
  {
  }

  /** An unregistered name is answered with a fixed text and no handler is called. */
  lemma UnknownToolAnswered(name: string, args: JsonValue, ctx: Context, handler: Invocation -> Settled)
    requires name !in FirstRead
    ensures Plan(name, args, ctx) == Answer("未知工具: " + name)
    ensures RunTool(name, args, ctx, handler) == Returned("未知工具: " + name)
  {
  }

  /** The dispatcher lets an error through only when an asynchronous handler other than
      `memory_set` rejects; every other failure comes back as a string. */
  lemma PropagatesOnlyUnawaitedRejections(name: string, args: JsonValue, ctx: Context,
                                          handler: Invocation -> Settled, e: JsError)
    ensures RunTool(name, args, ctx, handler) == Propagated(e) <==>
      (Plan(name, args, ctx).Call? && !Plan(name, args, ctx).invocation.MemorySet?
       && !Plan(name, args, ctx).invocation.ResearchSummarize?
       && handler(Plan(name, args, ctx).invocation) == Rejected(e))
  {
  }

  /** `memory_set` answers with a fixed text once the write resolves, and turns a failed
      write into the `catch` text. */
  lemma MemorySetOutcome(args: JsonValue, ctx: Context, handler: Invocation -> Settled)
    requires args.JObject? && StringableProp(args, "key") && StringableProp(args, "value")
    ensures var inv := MemorySet(ctx.userId, RequiredString(args, "key"), RequiredString(args, "value"));
      && Plan("memory_set", args, ctx) == Call(inv)
      && RunTool("memory_set", args, ctx, handler) ==
           match handler(inv)
           case Resolved(_) => Returned("已保存记忆")
           case Rejected(e) => Returned("工具执行异常: " + e.message)
  {
  }

  /** `research_summarize` answers with the summary itself: the text argument collapsed,
      trimmed and cut to the limit, whatever the handler oracle would do. */
  lemma SummarizeAnswered(args: JsonValue, ctx: Context, handler: Invocation -> Settled)
    requires !args.JNull? && Coercible("research_summarize", args)
    ensures RunTool("research_summarize", args, ctx, handler)
      == Returned(Research.Summarize(RequiredString(args, "text"), NumberOr(args, "max_length", 500)))
  {
    PlanOfReadable("research_summarize", args, ctx);
    SwitchResearchSummarize(args, ctx);
  }

  /** Arguments that parse to `null` make the first property read throw, and the
      `catch` turns that into a string. */
  lemma NullArgumentsCaught(name: string, ctx: Context, handler: Invocation -> Settled)
    requires name in FirstRead
    ensures RunTool(name, JNull, ctx, handler) == Returned("工具执行异常: " + NullRead(FirstRead[name]).message)
  {
  }

  /** `write_file` appends exactly when `append` is the boolean `true` or the string "true". */
  lemma AppendFlag(args: JsonValue, ctx: Context)
    requires args.JObject? && Coercible("write_file", args)
    ensures Plan("write_file", args, ctx).Call?
    ensures Plan("write_file", args, ctx).invocation.WriteFileContent?
    ensures Plan("write_file", args, ctx).invocation.append <==>
      ("append" in args.fields && args.fields["append"] in {JBool(true), JString("true")})
  {
  }

  /** A `browse` action outside the four valid ones is answered without calling the
      browser; a valid one is passed on unchanged. */
  lemma BrowseActionChecked(args: JsonValue, ctx: Context)
    requires args.JObject? && Coercible("browse", args)
    ensures var action := RequiredString(args, "action");
      && (action !in ValidActions ==> Plan("browse", args, ctx) == Answer(InvalidActionText))
      && (action in ValidActions ==>
            Plan("browse", args, ctx).Call? && Plan("browse", args, ctx).invocation == Browse(action,
              OptionalString(args, "url"), OptionalString(args, "selector"), OptionalString(args, "value")))
  {
  }

  /** `email_list` reads the text of a number given for `limit` with `parseInt`, and
      falls back to 10 when that gives NaN. */
  lemma EmailLimitText(t: string, ctx: Context)
    ensures Plan("email_list", JObject(map["limit" := JNumber(t)]), ctx) == Call(EmailList(ParseInt(t).GetOr(10)))
  {
    var args := JObject(map["limit" := JNumber(t)]);
    CoercibleWhenStringable("email_list", args);
    assert IntOr(args, "limit", 10) == ParseInt(t).GetOr(10) by {
      assert Present(args, "limit") == Some(JNumber(t));
    }
    PlanOfReadable("email_list", args, ctx);
    SwitchEmailList(args, ctx);
  }

  /** `email_read` reads the text of a number given for `index` with `parseInt`, and
      falls back to 0 when that gives NaN. */
  lemma EmailIndexText(t: string, ctx: Context)
    ensures Plan("email_read", JObject(map["index" := JNumber(t)]), ctx) == Call(EmailRead(ParseInt(t).GetOr(0)))
  {
    var args := JObject(map["index" := JNumber(t)]);
    CoercibleWhenStringable("email_read", args);
    assert IntOr(args, "index", 0) == ParseInt(t).GetOr(0) by {
      assert Present(args, "index") == Some(JNumber(t));
    }
    PlanOfReadable("email_read", args, ctx);
    SwitchEmailRead(args, ctx);
  }

  /** A number given for `limit` reaches the mail handler as `parseInt(String(n))`
      reads it: unchanged below 10^21 in magnitude, zero and negative values included. */
  lemma EmailLimitPassesThrough(n: int, ctx: Context)
    ensures Plan("email_list", JObject(map["limit" := JNumber(NumberToString(n))]), ctx)
      == Call(EmailList(ReparsedNumber(n)))
  {
    EmailLimitText(NumberToString(n), ctx);
    ParseIntOfNumberToString(n);
  }

  /** A number given for `index` reaches the mail handler as `parseInt(String(n))`
      reads it. */
  lemma EmailIndexPassesThrough(n: int, ctx: Context)
    ensures Plan("email_read", JObject(map["index" := JNumber(NumberToString(n))]), ctx)
      == Call(EmailRead(ReparsedNumber(n)))
  {
    EmailIndexText(NumberToString(n), ctx);
    ParseIntOfNumberToString(n);
  }

  /** A `limit` that is present but not a number `parseInt` can read (NaN) falls back
      to 10. */
  lemma EmailLimitNaNDefault(v: JsonValue, ctx: Context)
    requires v != JNull && Stringable(v) && ParseInt(ToJsString(v)).None?
    ensures Plan("email_list", JObject(map["limit" := v]), ctx) == Call(EmailList(10))
  {
    var args := JObject(map["limit" := v]);
    CoercibleWhenStringable("email_list", args);
    assert IntOr(args, "limit", 10) == 10 by {
      assert Present(args, "limit") == Some(v);
    }
    PlanOfReadable("email_list", args, ctx);
    SwitchEmailList(args, ctx);
  }

  /** An `index` that `parseInt` cannot read falls back to 0. */
  lemma EmailIndexNaNDefault(v: JsonValue, ctx: Context)
    requires v != JNull && Stringable(v) && ParseInt(ToJsString(v)).None?
    ensures Plan("email_read", JObject(map["index" := v]), ctx) == Call(EmailRead(0))
  {
    var args := JObject(map["index" := v]);
    CoercibleWhenStringable("email_read", args);
    assert IntOr(args, "index", 0) == 0 by {
      assert Present(args, "index") == Some(v);
    }
    PlanOfReadable("email_read", args, ctx);
    SwitchEmailRead(args, ctx);
  }

  /** A number given for `num_results` or `max_length` is passed on as
      `parseInt(String(n))` reads it, except that zero falls back to the default 5
      or 500. */
  lemma ResearchNumbersPassThrough(n: int, ctx: Context)
    ensures Plan("research_search", JObject(map["num_results" := JNumber(NumberToString(n))]), ctx)
      == Call(ResearchSearch("", if n == 0 then 5 else ReparsedNumber(n)))
    ensures Plan("research_summarize", JObject(map["max_length" := JNumber(NumberToString(n))]), ctx)
      == Call(ResearchSummarize("", if n == 0 then 500 else ReparsedNumber(n)))
  {
    SearchCountNumber(n, ctx);
    SummaryLimitNumber(n, ctx);
  }

  lemma SearchCountNumber(n: int, ctx: Context)
    ensures Plan("research_search", JObject(map["num_results" := JNumber(NumberToString(n))]), ctx)
      == Call(ResearchSearch("", if n == 0 then 5 else ReparsedNumber(n)))
  {
    var num := JObject(map["num_results" := JNumber(NumberToString(n))]);
    assert NumberOr(num, "num_results", 5) == if n == 0 then 5 else ReparsedNumber(n) by {
      assert OptionalString(num, "num_results") == Some(NumberToString(n));
      ParsedOrOfNumberToString(n, 5);
    }
    assert RequiredString(num, "query") == "";
    CoercibleWhenStringable("research_search", num);
    assert Plan("research_search", num, ctx) == Switch("research_search", num, ctx) by {
      PlanOfReadable("research_search", num, ctx);
    }
    SwitchResearchSearch(num, ctx);
  }

  lemma SummaryLimitNumber(n: int, ctx: Context)
    ensures Plan("research_summarize", JObject(map["max_length" := JNumber(NumberToString(n))]), ctx)
      == Call(ResearchSummarize("", if n == 0 then 500 else ReparsedNumber(n)))
  {
    var max := JObject(map["max_length" := JNumber(NumberToString(n))]);
    assert NumberOr(max, "max_length", 500) == if n == 0 then 500 else ReparsedNumber(n) by {
      assert OptionalString(max, "max_length") == Some(NumberToString(n));
      ParsedOrOfNumberToString(n, 500);
    }
    assert RequiredString(max, "text") == "";
    CoercibleWhenStringable("research_summarize", max);
    assert Plan("research_summarize", max, ctx) == Switch("research_summarize", max, ctx) by {
      PlanOfReadable("research_summarize", max, ctx);
    }
    SwitchResearchSummarize(max, ctx);
  }

  /** Arguments without properties: `{}`, or a JSON number, string, boolean or array
      (`JSON.parse` accepts all of them). */
  predicate NoProperties(args: JsonValue) {
    !args.JNull? && Fields(args) == map[]
  }

  /** Arguments without properties have nothing `String` could reject. */
  lemma NoPropertiesStringable(args: JsonValue)
    requires NoProperties(args)
    ensures forall k :: StringableProp(args, k)
  {
  }

  /** With no arguments, the shell, file and browser tools get "" for required strings,
      `undefined` for optional ones, "utf8" and `false`; `browse` rejects the empty action. */
  lemma EmptyArgumentFileDefaults(args: JsonValue, ctx: Context)
    requires NoProperties(args)
    ensures Plan("shell_exec", args, ctx) == Call(RunShell("", None))
    ensures Plan("read_file", args, ctx) == Call(ReadFileContent("", "utf8"))
    ensures Plan("write_file", args, ctx) == Call(WriteFileContent("", "", false))
    ensures Plan("list_dir", args, ctx) == Call(ListDir(""))
    ensures Plan("browse", args, ctx) == Answer(InvalidActionText)
  {
    NoPropertiesStringable(args);
    CoercibleWhenStringable("shell_exec", args);
    CoercibleWhenStringable("read_file", args);
    CoercibleWhenStringable("write_file", args);
    CoercibleWhenStringable("list_dir", args);
    CoercibleWhenStringable("browse", args);
  }

  /** With no arguments, memory, mail sending and travel tools get "" for required strings
      and `undefined` for optional ones; memory tools always use the caller's user id. */
  lemma EmptyArgumentServiceDefaults(args: JsonValue, ctx: Context)
    requires NoProperties(args)
    ensures Plan("memory_get", args, ctx) == Call(MemoryGet(ctx.userId, None))
    ensures Plan("memory_set", args, ctx) == Call(MemorySet(ctx.userId, "", ""))
    ensures Plan("email_send", args, ctx) == Call(EmailSend("", "", ""))
    ensures Plan("travel_search", args, ctx) == Call(TravelSearch(""))
    ensures Plan("travel_checkin", args, ctx) == Call(TravelCheckin(None, None))
  {
    NoPropertiesStringable(args);
    CoercibleWhenStringable("memory_get", args);
    CoercibleWhenStringable("memory_set", args);
    CoercibleWhenStringable("email_send", args);
    CoercibleWhenStringable("travel_search", args);
    CoercibleWhenStringable("travel_checkin", args);
  }

  /** With no arguments, the mail tools get 10 and 0. */
  lemma EmptyArgumentMailDefaults(args: JsonValue, ctx: Context)
    requires NoProperties(args)
    ensures Plan("email_list", args, ctx) == Call(EmailList(10))
    ensures Plan("email_read", args, ctx) == Call(EmailRead(0))
  {
  }

  /** With no arguments, the search tool gets its default 5 (by `NumberOrAsWritten`, the
      parse of its default text "5"). */
  lemma EmptyArgumentSearchDefaults(args: JsonValue, ctx: Context)
    requires NoProperties(args)
    ensures Plan("research_search", args, ctx) == Call(ResearchSearch("", 5))
  {
    assert OptionalString(args, "num_results") == None;
    PlanOfReadable("research_search", args, ctx);
    SwitchResearchSearch(args, ctx);
  }

  /** With no arguments, the summarising tool gets its default 500 (by `NumberOrAsWritten`,
      the parse of its default text "500"). */
  lemma EmptyArgumentSummarizeDefaults(args: JsonValue, ctx: Context)
    requires NoProperties(args)
    ensures Plan("research_summarize", args, ctx) == Call(ResearchSummarize("", 500))
  {
    assert OptionalString(args, "max_length") == None;
    PlanOfReadable("research_summarize", args, ctx);
    SwitchResearchSummarize(args, ctx);
  }

  /** The dispatcher answers "unknown tool" exactly for the names outside the dispatch
      table: every dispatched name has a case of its own, whatever the arguments. */
  lemma DispatcherHasEveryCase(name: string, args: JsonValue, ctx: Context)
    ensures Plan(name, args, ctx) == Answer(UnknownToolText(name)) <==> name !in FirstRead
  {
  }

  /** Each case passes the property it reads first through `String`, so the two tables
      name the same cases. */
  lemma FirstReadIsCoerced()
    ensures forall name :: name in FirstRead <==> name in Coerced
    ensures forall name :: name in FirstRead ==> |Coerced[name]| > 0 && Coerced[name][0] == FirstRead[name]
  {
  }

  /** A property that `String` cannot convert, in a case that converts it, makes the
      case throw before any handler runs, and the `catch` returns the TypeError's text:
      `{"command": {"toString": 1}}` never reaches the shell. */
  lemma UnconvertibleArgumentCaught(name: string, args: JsonValue, key: string, ctx: Context,
                                    handler: Invocation -> Settled)
    requires name in Coerced && key in Coerced[name] && !StringableProp(args, key)
    ensures Plan(name, args, ctx) == Throw(Unconvertible)
    ensures RunTool(name, args, ctx, handler) == Returned("工具执行异常: " + Unconvertible.message)
  {
    CoercibleMatchesTable(name, args);
    FirstReadIsCoerced();
  }

  /** Every registered tool has a case in the dispatcher, and every case is registered. */
  lemma RegistryMatchesDispatcher()
    ensures forall i :: 0 <= i < |ToolDefinitions.Registry| ==> ToolDefinitions.Registry[i].name in FirstRead
    ensures forall name :: name in FirstRead ==> name in ToolDefinitions.ToolNames
  {
    ToolDefinitions.RegistryNamesDistinct();
  }
}
