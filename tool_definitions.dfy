/** The static tool registry handed to the language model: one definition per tool,
    each with an object-typed parameter schema. */
module ToolDefinitions {
  import opened Wrappers

  /** One declared parameter: its name, its JSON-schema type and its description. */
  datatype Property = Property(name: string, propertyType: string, description: string)

  /** A parameter schema: its type, the declared properties in order, and the optional
      list of required property names. */
  datatype Parameters = Parameters(schemaType: string, properties: seq<Property>, required: Option<seq<string>>)

  datatype ToolDefinition = ToolDefinition(name: string, description: string, parameters: Parameters)

  const ShellExec: ToolDefinition :=
    ToolDefinition(
      "shell_exec",
      "在受控环境下执行 Shell 命令。用于运行终端命令、脚本或管理进程。仅允许在白名单路径下执行。",
      Parameters("object", [
        Property("command", "string", "要执行的命令，如 ls -la 或 node script.js"),
        Property("cwd", "string", "工作目录，需在白名单内，可选")
      ], Some(["command"])))

  const ReadFile: ToolDefinition :=
    ToolDefinition(
      "read_file",
      "读取文件内容。用于查看文档、配置或数据。",
      Parameters("object", [
        Property("path", "string", "文件路径，相对工作区或绝对路径"),
        Property("encoding", "string", "编码，默认 utf8")
      ], Some(["path"])))

  const WriteFile: ToolDefinition :=
    ToolDefinition(
      "write_file",
      "写入或覆盖文件。用于创建文档、保存数据或写配置。",
      Parameters("object", [
        Property("path", "string", "文件路径"),
        Property("content", "string", "要写入的内容"),
        Property("append", "string", "若为 true 则追加而非覆盖")
      ], Some(["path", "content"])))

  const ListDir: ToolDefinition :=
    ToolDefinition(
      "list_dir",
      "列出目录下的文件和子目录。用于浏览文件系统、管理文件夹。",
      Parameters("object", [
        Property("path", "string", "目录路径")
      ], Some(["path"])))

  const Browse: ToolDefinition :=
    ToolDefinition(
      "browse",
      "使用浏览器：打开网页、填表单、点击、提取页面文本。用于导航网站、抓取数据。需开启 BROWSER_ENABLED。",
      Parameters("object", [
        Property("action", "string", "navigate | extract | click | fill。navigate=打开URL，extract=提取当前页文本，click=点击选择器，fill=填写表单"),
        Property("url", "string", "仅 action=navigate 时使用"),
        Property("selector", "string", "仅 click 或 fill 时使用的 CSS 选择器"),
        Property("value", "string", "仅 fill 时使用的填写值")
      ], Some(["action"])))

  const MemoryGet: ToolDefinition :=
    ToolDefinition(
      "memory_get",
      "读取用户的持久化记忆：偏好、过往摘要、习惯。用于记住用户喜好和上下文。",
      Parameters("object", [
        Property("key", "string", "记忆键，如 preferences.summary 或 空表示读取全部")
      ], None))

  const MemorySet: ToolDefinition :=
    ToolDefinition(
      "memory_set",
      "写入用户的持久化记忆。用于保存偏好、摘要或学习用户习惯。",
      Parameters("object", [
        Property("key", "string", "记忆键"),
        Property("value", "string", "要保存的内容")
      ], Some(["key", "value"])))

  const EmailList: ToolDefinition :=
    ToolDefinition(
      "email_list",
      "列出收件箱中的邮件（最近 N 封，最新在前）。支持 Gmail 及其他 IMAP 邮箱。用于查看收件箱、让用户选一封再读。",
      Parameters("object", [
        Property("limit", "string", "最多返回条数，默认 10")
      ], None))

  const EmailRead: ToolDefinition :=
    ToolDefinition(
      "email_read",
      "按序号读取单封邮件的完整内容（主题、发件人、日期、正文）。序号 1 表示最新一封，与 email_list 列表顺序一致。先 email_list 再 email_read(index)。",
      Parameters("object", [
        Property("index", "string", "序号，1=最新一封")
      ], Some(["index"])))

  const EmailSend: ToolDefinition :=
    ToolDefinition(
      "email_send",
      "发送邮件。支持 Gmail 及其他 SMTP 邮箱。用于起草和发送回复。",
      Parameters("object", [
        Property("to", "string", "收件人邮箱"),
        Property("subject", "string", "主题"),
        Property("body", "string", "正文（纯文本）")
      ], Some(["to", "subject", "body"])))

  const TravelSearch: ToolDefinition :=
    ToolDefinition(
      "travel_search",
      "搜索航班/酒店/行程信息（通过网页搜索）。用于查找航班、酒店优惠、行程。",
      Parameters("object", [
        Property("query", "string", "搜索关键词，如 北京到上海 机票 或 三亚 酒店")
      ], Some(["query"])))

  const TravelCheckin: ToolDefinition :=
    ToolDefinition(
      "travel_checkin",
      "尝试打开常见航司值机页面或获取登机牌链接（通过浏览器导航）。用于航班值机。",
      Parameters("object", [
        Property("airline_hint", "string", "航司或值机页面关键词，如 国航 南航 东航"),
        Property("booking_ref", "string", "预订编号（若有）")
      ], None))

  const ResearchSearch: ToolDefinition :=
    ToolDefinition(
      "research_search",
      "网页搜索并返回摘要。用于搜索、对比产品、查找信息。",
      Parameters("object", [
        Property("query", "string", "搜索关键词"),
        Property("num_results", "string", "返回条数，默认 5")
      ], Some(["query"])))

  const ResearchSummarize: ToolDefinition :=
    ToolDefinition(
      "research_summarize",
      "对给定长文本进行摘要。用于总结文章、报告。",
      Parameters("object", [
        Property("text", "string", "要摘要的文本"),
        Property("max_length", "string", "摘要最大字数，默认 500")
      ], Some(["text"])))

  /** The registry, in declaration order. */
  const Registry: seq<ToolDefinition> := [
    ShellExec,
    ReadFile,
    WriteFile,
    ListDir,
    Browse,
    MemoryGet,
    MemorySet,
    EmailList,
    EmailRead,
    EmailSend,
    TravelSearch,
    TravelCheckin,
    ResearchSearch,
    ResearchSummarize
  ]

  /** Names of the properties a definition declares, in order. */
  function PropertyNames(d: ToolDefinition): seq<string>
  {
    seq(|d.parameters.properties|, k requires 0 <= k < |d.parameters.properties| => d.parameters.properties[k].name)
  }

  /** The names a definition marks as required (none when the list is absent). */
  function RequiredNames(d: ToolDefinition): seq<string>
  {
    d.parameters.required.GetOr([])
  }

  predicate HasPrefix(s: string, prefix: string) {
    |prefix| <= |s| && s[..|prefix|] == prefix
  }

  /** The tool names in registry order. */
  const ToolNames: seq<string> := [
    "shell_exec", "read_file", "write_file", "list_dir", "browse", "memory_get", "memory_set",
    "email_list", "email_read", "email_send", "travel_search", "travel_checkin",
    "research_search", "research_summarize"
  ]

  /** Fourteen definitions whose names are pairwise distinct. */
  lemma RegistryNamesDistinct()
    ensures |Registry| == 14
    ensures forall i :: 0 <= i < |Registry| ==> Registry[i].name == ToolNames[i]
    ensures forall i, j :: 0 <= i < j < |Registry| ==> Registry[i].name != Registry[j].name
  {
  }

  /** Every schema is an object schema. */
  lemma SchemasAreObjects()
    ensures forall i :: 0 <= i < |Registry| ==> Registry[i].parameters.schemaType == "object"
  {
  }

  /** Every declared property is typed as a string, the flag- and number-like ones included. */
  lemma PropertiesAreStrings()
    ensures forall i, k :: 0 <= i < |Registry| && 0 <= k < |Registry[i].parameters.properties| ==>
      Registry[i].parameters.properties[k].propertyType == "string"
  {
  }

  /** Every required name is a declared property of the same tool. */
  lemma RequiredAreDeclared()
    ensures forall i, r :: 0 <= i < |Registry| && r in RequiredNames(Registry[i]) ==> r in PropertyNames(Registry[i])
  {
    assert RequiredDeclared(ShellExec) by {
      assert PropertyNames(ShellExec) == ["command", "cwd"];
    }
    assert RequiredDeclared(ReadFile) by {
      assert PropertyNames(ReadFile) == ["path", "encoding"];
    }
    assert RequiredDeclared(WriteFile) by {
      assert PropertyNames(WriteFile) == ["path", "content", "append"];
    }
    assert RequiredDeclared(ListDir) by {
      assert PropertyNames(ListDir) == ["path"];
    }
    assert RequiredDeclared(Browse) by {
      assert PropertyNames(Browse) == ["action", "url", "selector", "value"];
    }
    assert RequiredDeclared(MemorySet) by {
      assert PropertyNames(MemorySet) == ["key", "value"];
    }
    assert RequiredDeclared(EmailRead) by {
      assert PropertyNames(EmailRead) == ["index"];
    }
    assert RequiredDeclared(EmailSend) by {
      assert PropertyNames(EmailSend) == ["to", "subject", "body"];
    }
    assert RequiredDeclared(TravelSearch) by {
      assert PropertyNames(TravelSearch) == ["query"];
    }
    assert RequiredDeclared(ResearchSearch) by {
      assert PropertyNames(ResearchSearch) == ["query", "num_results"];
    }
    assert RequiredDeclared(ResearchSummarize) by {
      assert PropertyNames(ResearchSummarize) == ["text", "max_length"];
    }
  }

  predicate RequiredDeclared(d: ToolDefinition) {
    forall r :: r in RequiredNames(d) ==> r in PropertyNames(d)
  }

  /** Exactly `memory_get`, `email_list` and `travel_checkin` declare no required list. */
  lemma NoRequiredList()
    ensures forall i :: 0 <= i < |Registry| ==>
      (Registry[i].parameters.required.None? <==> Registry[i].name in {"memory_get", "email_list", "travel_checkin"})
  {
  }

  /** No reminder tool is registered. */
  lemma NoReminderTools()
    ensures forall i :: 0 <= i < |Registry| ==> !HasPrefix(Registry[i].name, "reminder_")
  {
    RegistryNamesDistinct();
    forall i | 0 <= i < |ToolNames| ensures !HasPrefix(ToolNames[i], "reminder_") {
      assert ToolNames[i][0] != 'r' || ToolNames[i][2] != 'm';
    }
  }
}
