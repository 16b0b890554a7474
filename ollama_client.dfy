/**
  The orchestration state of the MCP client for an Ollama chat model:
  the connected servers and their namespaced tools, the visible scope,
  the conversation history, the streamed resolve loop and tool dispatch.
  The chat endpoint, the MCP library calls and the exit stack are inputs.
 */
module OllamaClient {
  import opened Wrappers
  import opened Dict
  import opened Text
  import opened Json
  import ConfigContainer

  /** The system prompt text; its wording does not matter to the model. */
  const SystemPrompt: string

  const DefaultModel := "customqwen:latest"

  const Separator := '/'

  // ---------------------------------------------------------------------------
  // Data model
  // ---------------------------------------------------------------------------

  /** A tool as the MCP server lists it. */
  datatype McpTool = McpTool(name: string, description: Option<string>, inputSchema: Json)

  /** A tool declaration as handed to the chat endpoint (type "function"). */
  datatype Tool = Tool(name: string, description: Option<string>, parameters: Json)

  /** A connected server: the library's session handle and its namespaced tools. */
  datatype Session = Session(handle: nat, tools: seq<Tool>)

  /** Server name to session, in insertion order. */
  type Servers = seq<(string, Session)>

  datatype Role = SystemRole | UserRole | AssistantRole | ToolRole

  /** One entry of the conversation history. */
  datatype Message = Message(role: Role, content: string)

  /** One unit yielded to the caller of `process_message`. */
  datatype ChatResponse = ChatResponse(role: Role, content: string)

  /** A tool call the model requested: namespaced name and arguments. */
  datatype ToolCall = ToolCall(name: string, arguments: Arguments)

  /** One streamed unit of a chat response: its content and its tool calls. */
  datatype Part = Part(content: string, toolCalls: seq<ToolCall>)

  type Stream = seq<Part>

  /** What a chat request carries: model name, history and tool catalog. */
  datatype ChatRequest = ChatRequest(model: string, messages: seq<Message>, tools: seq<Tool>)

  /** One item of a `call_tool` result. */
  datatype ContentItem = TextContent(text: string) | OtherContent(kind: string)

  /** `session.call_tool(...)`: a result's content list, or the exception it raised. */
  datatype ToolReply = Returned(content: seq<ContentItem>) | Raised(detail: string)

  /** `call_tool` of the session with this handle, for a tool name and arguments. */
  type CallTool = (nat, string, Arguments) -> ToolReply

  /** What connecting to one server yields: a session handle and the listed tools. */
  datatype Connection = Connection(handle: nat, listed: seq<McpTool>)

  /** Launching, initialising and listing one server, or the error that aborts it. */
  type Connector = (string, ConfigContainer.ServerParams) -> Result<Connection, string>

  /** Exceptions that propagate out of a turn. */
  datatype Failure =
    | KeyError(key: string)   // the server prefix is not in the selected scope
    | IndexError              // the tool name has no separator
    | ChatEndpointError       // the chat endpoint gave no response

  // ---------------------------------------------------------------------------
  // Namespacing and the tool catalog
  // ---------------------------------------------------------------------------

  function NamespacedTool(server: string, t: McpTool): Tool
  {
    Tool(server + [Separator] + t.name, t.description, t.inputSchema)
  }

  /** The tools of one server as it is connected: each listed tool, renamed "<server>/<tool>". */
  function Namespaced(server: string, listed: seq<McpTool>): (tools: seq<Tool>)
    ensures |tools| == |listed|
    ensures forall i :: 0 <= i < |listed| ==>
      && tools[i].name == server + [Separator] + listed[i].name
      && tools[i].description == listed[i].description
      && tools[i].parameters == listed[i].inputSchema
  {
    if listed == [] then [] else [NamespacedTool(server, listed[0])] + Namespaced(server, listed[1..])
  }

  /** `name` is namespaced under `server`. */
  predicate HasPrefix(name: string, server: string)
  {
    |name| > |server| && name[..|server| + 1] == server + [Separator]
  }

  /** Every tool of every entry is namespaced under that entry's key. */
  ghost predicate Namespaces(scope: Servers)
  {
    forall i, j :: 0 <= i < |scope| && 0 <= j < |scope[i].1.tools| ==> HasPrefix(scope[i].1.tools[j].name, scope[i].0)
  }

  ghost predicate DistinctNames(tools: seq<Tool>)
  {
    forall a, b :: 0 <= a < b < |tools| ==> tools[a].name != tools[b].name
  }

  /** `get_tools` on a scope: its sessions' tool lists chained in scope order. */
  function Catalog(scope: Servers): seq<Tool>
  {
    if scope == [] then [] else scope[0].1.tools + Catalog(scope[1..])
  }

  /** The number of tools the sessions of a scope advertise. */
  function ToolCount(scope: Servers): nat
  {
    if scope == [] then 0 else |scope[0].1.tools| + ToolCount(scope[1..])
  }

  lemma {:induction false} CatalogLength(scope: Servers)
    ensures |Catalog(scope)| == ToolCount(scope)
  {
    if scope != [] {
      CatalogLength(scope[1..]);
    }
  }

  /** A tool is in the catalog exactly when some session of the scope lists it. */
  lemma {:induction false} CatalogMembership(scope: Servers, t: Tool)
    ensures t in Catalog(scope) <==> exists i :: 0 <= i < |scope| && t in scope[i].1.tools
  {
    if scope != [] {
      CatalogMembership(scope[1..], t);
      if t in Catalog(scope[1..]) {
        var i :| 0 <= i < |scope[1..]| && t in scope[1..][i].1.tools;
        assert t in scope[i + 1].1.tools;
      }
      if exists i :: 0 <= i < |scope| && t in scope[i].1.tools {
        var i :| 0 <= i < |scope| && t in scope[i].1.tools;
        if i > 0 {
          assert t in scope[1..][i - 1].1.tools;
        }
      }
    }
  }

  /** The catalog of a scope followed by that of another is the catalog of both. */
  lemma {:induction false} CatalogAppend(a: Servers, b: Servers)
    ensures Catalog(a + b) == Catalog(a) + Catalog(b)
  {
    if a != [] {
      assert (a + b)[0] == a[0] && (a + b)[1..] == a[1..] + b;
      CatalogAppend(a[1..], b);
      assert Catalog(a + b) == a[0].1.tools + Catalog(a[1..] + b);
    } else {
      assert a + b == b;
    }
  }

  /** Namespacing keeps a server's tool names apart when the server listed them apart. */
  lemma NamespacedDistinct(server: string, listed: seq<McpTool>)
    requires forall a, b :: 0 <= a < b < |listed| ==> listed[a].name != listed[b].name
    ensures DistinctNames(Namespaced(server, listed))
  {
    var tools := Namespaced(server, listed);
    forall a, b | 0 <= a < b < |tools| ensures tools[a].name != tools[b].name {
      var p := server + [Separator];
      assert tools[a].name == p + listed[a].name && tools[b].name == p + listed[b].name;
      assert listed[a].name == (p + listed[a].name)[|p|..];
      assert listed[b].name == (p + listed[b].name)[|p|..];
    }
  }

  lemma NamespacedHasPrefix(server: string, listed: seq<McpTool>)
    ensures forall j :: 0 <= j < |listed| ==> HasPrefix(Namespaced(server, listed)[j].name, server)
  {
    var tools := Namespaced(server, listed);
    forall j | 0 <= j < |listed| ensures HasPrefix(tools[j].name, server) {
      assert tools[j].name[..|server| + 1] == server + [Separator];
    }
  }

  /** Two names namespaced under separator-free servers share a prefix only if the servers agree. */
  lemma PrefixDetermined(name: string, s1: string, s2: string)
    requires Separator !in s1 && Separator !in s2
    requires HasPrefix(name, s1) && HasPrefix(name, s2)
    ensures s1 == s2
  {
    assert name[|s1|] == Separator && name[|s2|] == Separator;
    forall k | 0 <= k < |s1| ensures name[k] != Separator {
      assert name[k] == (s1 + [Separator])[k] == s1[k];
    }
    forall k | 0 <= k < |s2| ensures name[k] != Separator {
      assert name[k] == (s2 + [Separator])[k] == s2[k];
    }
    assert |s1| == |s2|;
    assert s1 == name[..|s1|] == s2;
  }

  /**
    No two tools of the catalog share a name, provided the server names are
    distinct and contain no separator and each server lists distinct names.
   */
  lemma {:induction false} CatalogNamesDistinct(scope: Servers)
    requires UniqueKeys(scope) && Namespaces(scope)
    requires forall i :: 0 <= i < |scope| ==> Separator !in scope[i].0 && DistinctNames(scope[i].1.tools)
    ensures DistinctNames(Catalog(scope))
  {
    if scope != [] {
      var rest := scope[1..];
      CatalogNamesDistinct(rest);
      var head := scope[0].1.tools;
      var c := Catalog(scope);
      assert c == head + Catalog(rest);
      forall a, b | 0 <= a < b < |c| ensures c[a].name != c[b].name {
        if a < |head| && b >= |head| {
          var t := c[b];
          assert t in Catalog(rest);
          CatalogMembership(rest, t);
          var i :| 0 <= i < |rest| && t in rest[i].1.tools;
          var j :| 0 <= j < |rest[i].1.tools| && rest[i].1.tools[j] == t;
          assert HasPrefix(t.name, scope[i + 1].0);
          assert HasPrefix(head[a].name, scope[0].0);
          if c[a].name == t.name {
            PrefixDetermined(t.name, scope[0].0, scope[i + 1].0);
          }
        } else if b < |head| {
          assert c[a] == head[a] && c[b] == head[b];
        } else {
          assert c[a] == Catalog(rest)[a - |head|] && c[b] == Catalog(rest)[b - |head|];
        }
      }
    }
  }

  // ---------------------------------------------------------------------------
  // Tool dispatch
  // ---------------------------------------------------------------------------

  /** `str(tool.function)` for a requested call. */
  function FunctionText(call: ToolCall): string
  {
    "name=" + Quoted(call.name) + " arguments=" + ArgumentsText(call.arguments)
  }

  const SuccessPrefix := "tool: "
  const ErrorPrefix := "Error in tool: "

  function ErrorMessage(call: ToolCall, detail: string): string
  {
    ErrorPrefix + FunctionText(call) + "\nargs: " + ArgumentsText(call.arguments) + "\n" + detail
  }

  /** The reply's first content item is text, so `result.content[0].text` succeeds. */
  predicate RepliedText(reply: ToolReply)
  {
    reply.Returned? && |reply.content| > 0 && reply.content[0].TextContent?
  }

  /**
    The message a reply becomes inside the `try`: the first content item's text
    on success; an "Error in tool" message when `call_tool` raised, when the
    content is empty (IndexError) or when its first item has no text
    (AttributeError).
   */
  function ToolMessage(call: ToolCall, reply: ToolReply): (text: string)
    ensures RepliedText(reply) ==>
      text == SuccessPrefix + call.name + "\nargs: " + ArgumentsText(call.arguments) + "\nreturn: " + reply.content[0].text
    ensures !RepliedText(reply) ==> |text| >= |ErrorPrefix| && text[..|ErrorPrefix|] == ErrorPrefix
    ensures reply.Raised? ==> text == ErrorMessage(call, reply.detail)
  {
    match reply
    case Raised(e) => ErrorMessage(call, e)
    case Returned(content) =>
      if content == [] then ErrorMessage(call, IndexOutOfRange)
      else
        match content[0]
        case TextContent(t) => SuccessPrefix + call.name + "\nargs: " + ArgumentsText(call.arguments) + "\nreturn: " + t
        case OtherContent(kind) => ErrorMessage(call, "'" + kind + "' object has no attribute 'text'")
  }

  /**
    One iteration of `_tool_call`: split the name on the separator, look up the
    prefix in the selected scope (a missing key raises KeyError), take the
    second piece as the tool name (a missing piece raises IndexError), then
    call the tool; these two lookups run before the `try`, so they propagate.
   */
  function Dispatch(scope: Servers, call: ToolCall, callTool: CallTool): (r: Result<string, Failure>)
    ensures var split := Split(call.name, Separator);
      && (split[0] !in Keys(scope) ==> r == Err(KeyError(split[0])))
      && (split[0] in Keys(scope) && |split| < 2 ==> r == Err(IndexError))
      && (split[0] in Keys(scope) && |split| >= 2 ==>
            r == Ok(ToolMessage(call, callTool(Lookup(scope, split[0]).value.handle, split[1], call.arguments))))
  {
    var split := Split(call.name, Separator);
    match Lookup(scope, split[0])
    case None => Err(KeyError(split[0]))
    case Some(session) =>
      if |split| < 2 then Err(IndexError)
      else Ok(ToolMessage(call, callTool(session.handle, split[1], call.arguments)))
  }

  /** `_tool_call`: one message per requested call, in request order, or the first exception. */
  function DispatchAll(scope: Servers, calls: seq<ToolCall>, callTool: CallTool): Result<seq<string>, Failure>
  {
    if calls == [] then Ok([])
    else
      match Dispatch(scope, calls[0], callTool)
      case Err(f) => Err(f)
      case Ok(m) =>
        match DispatchAll(scope, calls[1..], callTool)
        case Err(f) => Err(f)
        case Ok(ms) => Ok([m] + ms)
  }

  /**
    Dispatching a part's calls succeeds exactly when every call does, and then
    yields one message per call, in request order.
   */
  lemma {:induction false} DispatchAllOk(scope: Servers, calls: seq<ToolCall>, callTool: CallTool)
    ensures var r := DispatchAll(scope, calls, callTool);
      && (r.Ok? <==> forall i :: 0 <= i < |calls| ==> Dispatch(scope, calls[i], callTool).Ok?)
      && (r.Ok? ==> |r.value| == |calls|)
      && (r.Ok? ==> forall i :: 0 <= i < |calls| ==> r.value[i] == Dispatch(scope, calls[i], callTool).value)
  {
    if calls != [] {
      DispatchAllOk(scope, calls[1..], callTool);
      assert forall i :: 1 <= i < |calls| ==> calls[i] == calls[1..][i - 1];
    }
  }

  /** A failed dispatch raises the exception of the first call that fails. */
  lemma {:induction false} DispatchAllErr(scope: Servers, calls: seq<ToolCall>, callTool: CallTool)
    requires DispatchAll(scope, calls, callTool).Err?
    ensures var f := DispatchAll(scope, calls, callTool).error;
      && f != ChatEndpointError
      && exists i :: (0 <= i < |calls| && Dispatch(scope, calls[i], callTool) == Err(f) &&
                      forall j :: 0 <= j < i ==> Dispatch(scope, calls[j], callTool).Ok?)
  {
    var f := DispatchAll(scope, calls, callTool).error;
    if Dispatch(scope, calls[0], callTool).Ok? {
      DispatchAllErr(scope, calls[1..], callTool);
      var i :| 0 <= i < |calls[1..]| && Dispatch(scope, calls[1..][i], callTool) == Err(f) &&
               forall j :: 0 <= j < i ==> Dispatch(scope, calls[1..][j], callTool).Ok?;
      assert calls[1..][i] == calls[i + 1];
      assert forall j :: 1 <= j < i + 1 ==> calls[j] == calls[1..][j - 1];
    } else {
      assert Dispatch(scope, calls[0], callTool) == Err(f);
    }
  }

  /** The messages appended by dispatching calls, preceded by the ones already produced. */
  function AfterCalls(done: seq<string>, r: Result<seq<string>, Failure>): Result<seq<string>, Failure>
  {
    match r
    case Ok(ms) => Ok(done + ms)
    case Err(f) => Err(f)
  }

  /** `_tool_call` after `i` calls: the messages so far, followed by those of the remaining calls. */
  ghost predicate DispatchProgress(scope: Servers, calls: seq<ToolCall>, callTool: CallTool, i: nat, done: seq<string>)
  {
    i <= |calls| && DispatchAll(scope, calls, callTool) == AfterCalls(done, DispatchAll(scope, calls[i..], callTool))
  }

  lemma DispatchProgressStart(scope: Servers, calls: seq<ToolCall>, callTool: CallTool)
    ensures DispatchProgress(scope, calls, callTool, 0, [])
  {
    assert calls[0..] == calls;
    match DispatchAll(scope, calls, callTool) {
      case Ok(ms) => assert [] + ms == ms;
      case Err(_) =>
    }
  }

  /** One more call dispatched: its exception ends the loop, or its message joins the others. */
  lemma DispatchProgressStep(scope: Servers, calls: seq<ToolCall>, callTool: CallTool, i: nat, done: seq<string>)
    requires i < |calls| && DispatchProgress(scope, calls, callTool, i, done)
    ensures match Dispatch(scope, calls[i], callTool)
      case Err(f) => DispatchAll(scope, calls, callTool) == Err(f)
      case Ok(m) => DispatchProgress(scope, calls, callTool, i + 1, done + [m])
  {
    assert calls[i..][0] == calls[i] && calls[i..][1..] == calls[i + 1..];
    match Dispatch(scope, calls[i], callTool) {
      case Err(_) =>
      case Ok(m) =>
        match DispatchAll(scope, calls[i + 1..], callTool) {
          case Ok(ms) => ConcatAssoc(done, [m], ms);
          case Err(_) =>
        }
    }
  }

  lemma DispatchProgressEnd(scope: Servers, calls: seq<ToolCall>, callTool: CallTool, done: seq<string>)
    requires DispatchProgress(scope, calls, callTool, |calls|, done)
    ensures DispatchAll(scope, calls, callTool) == Ok(done)
  {
    assert calls[|calls|..] == [] && done + [] == done;
  }

  /**
    A namespaced name "<server>/<tool>" reaches the session the selected scope
    holds under that server, called with the tool's own name, whatever the
    tool then returns or raises; every catalog entry has such a name
    (`Namespaced`).
   */
  lemma DispatchNamespacedTool(scope: Servers, server: string, session: Session, tool: string, args: Arguments, callTool: CallTool)
    requires Lookup(scope, server) == Some(session)
    requires Separator !in server && Separator !in tool
    ensures var call := ToolCall(server + [Separator] + tool, args);
      Dispatch(scope, call, callTool) == Ok(ToolMessage(call, callTool(session.handle, tool, args)))
  {
    SplitPair(server, Separator, tool);
  }

  /** A name whose prefix is not in the selected scope raises, even when another connected server holds it. */
  lemma DispatchOutsideScope(scope: Servers, server: string, tool: string, args: Arguments, callTool: CallTool)
    requires Separator !in server && server !in Keys(scope)
    ensures Dispatch(scope, ToolCall(server + [Separator] + tool, args), callTool) == Err(KeyError(server))
  {
    SplitAtFirst(server, Separator, tool);
  }

  /** A name with no separator raises: KeyError if it is no server, IndexError if it is one. */
  lemma DispatchWithoutSeparator(scope: Servers, name: string, args: Arguments, callTool: CallTool)
    requires Separator !in name
    ensures Dispatch(scope, ToolCall(name, args), callTool) ==
      if name in Keys(scope) then Err(IndexError) else Err(KeyError(name))
  {
    SplitNoSeparator(name, Separator);
  }

  /**
    Only the piece after the first separator and before any second one is
    used as the tool name: "s/a/b" calls tool "a" of server "s".
   */
  lemma DispatchTruncatesToolName(scope: Servers, i: nat, a: string, b: string, args: Arguments, callTool: CallTool)
    requires UniqueKeys(scope) && i < |scope|
    requires Separator !in scope[i].0 && Separator !in a
    ensures var call := ToolCall(scope[i].0 + [Separator] + a + [Separator] + b, args);
      Dispatch(scope, call, callTool) == Ok(ToolMessage(call, callTool(scope[i].1.handle, a, args)))
  {
    var s := scope[i].0;
    assert s + [Separator] + a + [Separator] + b == s + [Separator] + (a + [Separator] + b);
    SplitAtFirst(s, Separator, a + [Separator] + b);
    SplitAtFirst(a, Separator, b);
    LookupAt(scope, i);
  }

  // ---------------------------------------------------------------------------
  // The resolve loop over a scripted chat endpoint
  // ---------------------------------------------------------------------------

  function ToolChunks(ms: seq<string>): (chunks: seq<ChatResponse>)
    ensures |chunks| == |ms|
    ensures forall i :: 0 <= i < |ms| ==> chunks[i] == ChatResponse(ToolRole, ms[i])
  {
    if ms == [] then [] else [ChatResponse(ToolRole, ms[0])] + ToolChunks(ms[1..])
  }

  function ToolMessages(ms: seq<string>): (messages: seq<Message>)
    ensures |messages| == |ms|
  {
    if ms == [] then [] else [Message(ToolRole, ms[0])] + ToolMessages(ms[1..])
  }

  /** The contents of the chunks with the given role, in order. */
  function ContentsOf(chunks: seq<ChatResponse>, role: Role): seq<string>
  {
    if chunks == [] then []
    else (if chunks[0].role == role then [chunks[0].content] else []) + ContentsOf(chunks[1..], role)
  }

  /** A part whose tool calls run: it has no content (content takes precedence) but has calls. */
  predicate IsToolPart(p: Part)
  {
    p.content == "" && p.toolCalls != []
  }

  /** The number of parts of a stream whose tool calls run. */
  function ToolPartCount(stream: Stream): nat
  {
    if stream == [] then 0 else (if IsToolPart(stream[0]) then 1 else 0) + ToolPartCount(stream[1..])
  }

  /** The non-empty contents of a stream's parts, in order. */
  function ContentTexts(stream: Stream): seq<string>
  {
    if stream == [] then [] else (if stream[0].content != "" then [stream[0].content] else []) + ContentTexts(stream[1..])
  }

  /**
    What consuming one streamed response does: the chunks yielded, the tool
    messages appended to history, the number of tool-call parts
    (`tool_message_count`) and the exception that stopped it, if any.
   */
  datatype StreamResult = StreamResult(chunks: seq<ChatResponse>, toolMessages: seq<string>, toolParts: nat, failure: Option<Failure>)

  /** The `async for part in stream` loop of `_recursive_prompt`. */
  function ProcessStream(scope: Servers, stream: Stream, callTool: CallTool): StreamResult
  {
    if stream == [] then StreamResult([], [], 0, None)
    else
      var part := stream[0];
      if part.content != "" then
        var rest := ProcessStream(scope, stream[1..], callTool);
        rest.(chunks := [ChatResponse(AssistantRole, part.content)] + rest.chunks)
      else if part.toolCalls != [] then
        match DispatchAll(scope, part.toolCalls, callTool)
        case Err(f) => StreamResult([], [], 0, Some(f))
        case Ok(ms) =>
          var rest := ProcessStream(scope, stream[1..], callTool);
          StreamResult(ToolChunks(ms) + rest.chunks, ms + rest.toolMessages, rest.toolParts + 1, rest.failure)
      else ProcessStream(scope, stream[1..], callTool)
  }

  lemma {:induction false} ContentsOfAppend(a: seq<ChatResponse>, b: seq<ChatResponse>, role: Role)
    ensures ContentsOf(a + b, role) == ContentsOf(a, role) + ContentsOf(b, role)
  {
    if a == [] {
      assert a + b == b;
    } else {
      assert (a + b)[0] == a[0] && (a + b)[1..] == a[1..] + b;
      ContentsOfAppend(a[1..], b, role);
    }
  }

  lemma {:induction false} ContentsOfToolChunks(ms: seq<string>)
    ensures ContentsOf(ToolChunks(ms), ToolRole) == ms
    ensures ContentsOf(ToolChunks(ms), AssistantRole) == []
  {
    if ms != [] {
      ContentsOfToolChunks(ms[1..]);
      assert ToolChunks(ms)[1..] == ToolChunks(ms[1..]);
    }
  }

  /**
    Over one stream: the tool chunks yielded are exactly the tool messages
    appended; when nothing raised, every part with content yielded one
    assistant chunk (tool calls beside it are ignored) and every tool-call
    part was counted once. A run stops early exactly when some tool-call
    part's dispatch raised.
   */
  lemma {:induction false} ProcessStreamSummary(scope: Servers, stream: Stream, callTool: CallTool)
    ensures var r := ProcessStream(scope, stream, callTool);
      && ContentsOf(r.chunks, ToolRole) == r.toolMessages
      && r.failure != Some(ChatEndpointError)
      && (r.failure.None? ==> ContentsOf(r.chunks, AssistantRole) == ContentTexts(stream))
      && (r.failure.None? ==> r.toolParts == ToolPartCount(stream))
      && (r.failure.None? <==> forall i :: 0 <= i < |stream| && IsToolPart(stream[i]) ==>
                                 DispatchAll(scope, stream[i].toolCalls, callTool).Ok?)
  {
    if stream != [] {
      var part := stream[0];
      var r := ProcessStream(scope, stream, callTool);
      var rest := ProcessStream(scope, stream[1..], callTool);
      ProcessStreamSummary(scope, stream[1..], callTool);
      assert forall i :: 1 <= i < |stream| ==> stream[i] == stream[1..][i - 1];
      if part.content != "" {
        ContentsOfAppend([ChatResponse(AssistantRole, part.content)], rest.chunks, ToolRole);
        ContentsOfAppend([ChatResponse(AssistantRole, part.content)], rest.chunks, AssistantRole);
      } else if part.toolCalls != [] {
        match DispatchAll(scope, part.toolCalls, callTool)
        case Err(f) =>
          DispatchAllErr(scope, part.toolCalls, callTool);
        case Ok(ms) =>
          ContentsOfToolChunks(ms);
          ContentsOfAppend(ToolChunks(ms), rest.chunks, ToolRole);
          ContentsOfAppend(ToolChunks(ms), rest.chunks, AssistantRole);
      }
    }
  }

  /**
    What one user turn did: the chunks yielded, the resulting history, every
    chat request issued (model, history at that moment, catalog), the script
    left over and the exception that ended the turn, if any.
   */
  datatype TurnResult = TurnResult(
    chunks: seq<ChatResponse>,
    history: seq<Message>,
    requests: seq<ChatRequest>,
    rest: seq<Stream>,
    failure: Option<Failure>)

  /**
    `_recursive_prompt`: prompt with the whole history and the scope's
    catalog, consume the next scripted stream, and prompt again exactly when
    at least one tool-call part ran. An exhausted script stands for a chat
    endpoint that no longer answers.
   */
  function Resolve(model: string, history: seq<Message>, scope: Servers, script: seq<Stream>, callTool: CallTool): TurnResult
    decreases |script|
  {
    var request := ChatRequest(model, history, Catalog(scope));
    if script == [] then TurnResult([], history, [request], [], Some(ChatEndpointError))
    else
      var r := ProcessStream(scope, script[0], callTool);
      var h := history + ToolMessages(r.toolMessages);
      if r.failure.None? && r.toolParts > 0 then
        var next := Resolve(model, h, scope, script[1..], callTool);
        TurnResult(r.chunks + next.chunks, next.history, [request] + next.requests, next.rest, next.failure)
      else TurnResult(r.chunks, h, [request], script[1..], r.failure)
  }

  lemma {:induction false} ToolMessagesAppend(a: seq<string>, b: seq<string>)
    ensures ToolMessages(a + b) == ToolMessages(a) + ToolMessages(b)
  {
    if a == [] {
      assert a + b == b;
    } else {
      assert (a + b)[0] == a[0] && (a + b)[1..] == a[1..] + b;
      ToolMessagesAppend(a[1..], b);
    }
  }

  /**
    A turn only appends to history, and what it appends is exactly the tool
    chunks it yielded, each as a `tool` message, in order.
   */
  lemma {:induction false} ResolveHistory(model: string, history: seq<Message>, scope: Servers, script: seq<Stream>, callTool: CallTool)
    ensures var t := Resolve(model, history, scope, script, callTool);
      t.history == history + ToolMessages(ContentsOf(t.chunks, ToolRole))
    decreases |script|
  {
    var t := Resolve(model, history, scope, script, callTool);
    if script != [] {
      var r := ProcessStream(scope, script[0], callTool);
      ProcessStreamSummary(scope, script[0], callTool);
      var h := history + ToolMessages(r.toolMessages);
      if r.failure.None? && r.toolParts > 0 {
        var next := Resolve(model, h, scope, script[1..], callTool);
        ResolveHistory(model, h, scope, script[1..], callTool);
        ContentsOfAppend(r.chunks, next.chunks, ToolRole);
        ToolMessagesAppend(r.toolMessages, ContentsOf(next.chunks, ToolRole));
      }
    }
  }

  /**
    The rounds of a turn: every prompt but the last was answered by a stream
    with at least one tool-call part; a turn that ends normally ends on a
    stream with none; the streams used are a prefix of the script; the
    endpoint is prompted once beyond the script only when every scripted
    stream asked for tools.
   */
  lemma {:induction false} ResolveRounds(model: string, history: seq<Message>, scope: Servers, script: seq<Stream>, callTool: CallTool)
    ensures var t := Resolve(model, history, scope, script, callTool);
      && 1 <= |t.requests| <= |script| + 1
      && (forall k :: 0 <= k < |t.requests| - 1 ==> ToolPartCount(script[k]) > 0)
      && (t.failure == Some(ChatEndpointError) ==> |t.requests| == |script| + 1 && t.rest == [])
      && (t.failure != Some(ChatEndpointError) ==> |t.requests| <= |script| && t.rest == script[|t.requests|..])
      && (t.failure.None? ==> ToolPartCount(script[|t.requests| - 1]) == 0)
    decreases |script|
  {
    if script != [] {
      var r := ProcessStream(scope, script[0], callTool);
      ProcessStreamSummary(scope, script[0], callTool);
      var h := history + ToolMessages(r.toolMessages);
      if r.failure.None? && r.toolParts > 0 {
        ResolveRounds(model, h, scope, script[1..], callTool);
        var next := Resolve(model, h, scope, script[1..], callTool);
        assert forall k :: 1 <= k < |script| ==> script[k] == script[1..][k - 1];
        if next.failure != Some(ChatEndpointError) {
          assert script[1..][|next.requests|..] == script[|next.requests| + 1..];
        }
      }
    }
  }

  /**
    Every request of a turn carries the model name and the scope's catalog,
    the first carries the history the turn began with, and each carries a
    prefix of the final history.
   */
  lemma {:induction false} ResolveRequests(model: string, history: seq<Message>, scope: Servers, script: seq<Stream>, callTool: CallTool)
    ensures var t := Resolve(model, history, scope, script, callTool);
      && t.requests[0].messages == history
      && forall k :: 0 <= k < |t.requests| ==>
           && t.requests[k].model == model
           && t.requests[k].tools == Catalog(scope)
           && t.requests[k].messages <= t.history
    decreases |script|
  {
    if script != [] {
      var r := ProcessStream(scope, script[0], callTool);
      var h := history + ToolMessages(r.toolMessages);
      if r.failure.None? && r.toolParts > 0 {
        ResolveRequests(model, h, scope, script[1..], callTool);
        ResolveHistory(model, h, scope, script[1..], callTool);
      }
    }
  }

  /** The endpoint is prompted a second time exactly when the first stream held a tool-call part. */
  lemma RepromptIffToolPart(model: string, history: seq<Message>, scope: Servers, script: seq<Stream>, callTool: CallTool)
    requires script != [] && ProcessStream(scope, script[0], callTool).failure.None?
    ensures |Resolve(model, history, scope, script, callTool).requests| >= 2 <==> ToolPartCount(script[0]) > 0
  {
    ProcessStreamSummary(scope, script[0], callTool);
  }

  // ---------------------------------------------------------------------------
  // Connecting to the configured servers
  // ---------------------------------------------------------------------------

  /** The session record stored for a server once connected. */
  function SessionOf(name: string, c: Connection): Session
  {
    Session(c.handle, Namespaced(name, c.listed))
  }

  /**
    `_connect_to_multiple_servers`: for each configured entry in order, open a
    session and store it under the entry's name; the first connection error
    aborts the loop and leaves the servers stored so far in place.
   */
  function ConnectAll(servers: Servers, items: seq<(string, ConfigContainer.ServerParams)>, connect: Connector): (Servers, Option<string>)
    decreases |items|
  {
    if items == [] then (servers, None)
    else
      match connect(items[0].0, items[0].1)
      case Err(e) => (servers, Some(e))
      case Ok(c) => ConnectAll(Put(servers, items[0].0, SessionOf(items[0].0, c)), items[1..], connect)
  }

  /** The number of leading configuration entries whose connection succeeds. */
  function Succeeding(items: seq<(string, ConfigContainer.ServerParams)>, connect: Connector): (k: nat)
    ensures k <= |items|
    ensures forall j :: 0 <= j < k ==> connect(items[j].0, items[j].1).Ok?
    ensures k < |items| ==> connect(items[k].0, items[k].1).Err?
  {
    if items == [] || connect(items[0].0, items[0].1).Err? then 0 else 1 + Succeeding(items[1..], connect)
  }

  lemma {:induction false} PutPreservesNamespaces(d: Servers, k: string, v: Session)
    requires Namespaces(d)
    requires forall j :: 0 <= j < |v.tools| ==> HasPrefix(v.tools[j].name, k)
    ensures Namespaces(Put(d, k, v))
  {
    if d != [] {
      var r := Put(d, k, v);
      assert Namespaces(d[1..]) by {
        assert forall i :: 0 <= i < |d[1..]| ==> d[1..][i] == d[i + 1];
      }
      if d[0].0 != k {
        PutPreservesNamespaces(d[1..], k, v);
        var tail := Put(d[1..], k, v);
        assert forall i :: 0 < i < |r| ==> r[i] == tail[i - 1];
      } else {
        assert forall i :: 0 < i < |r| ==> r[i] == d[i];
      }
    }
  }

  lemma RestrictPreservesNamespaces(d: Servers, ks: seq<string>)
    requires Namespaces(d)
    ensures Namespaces(Restrict(d, ks))
  {
    var r := Restrict(d, ks);
    RestrictEntries(d, ks);
    forall i, j | 0 <= i < |r| && 0 <= j < |r[i].1.tools| ensures HasPrefix(r[i].1.tools[j].name, r[i].0) {
      var m :| 0 <= m < |d| && d[m] == r[i];
    }
  }

  /** A connected session's tools are namespaced under the server's name. */
  lemma SessionOfNamespaced(name: string, c: Connection)
    ensures forall j :: 0 <= j < |SessionOf(name, c).tools| ==> HasPrefix(SessionOf(name, c).tools[j].name, name)
  {
    NamespacedHasPrefix(name, c.listed);
  }

  /** Connecting keeps the server dict well formed and every tool namespaced under its server. */
  lemma {:induction false} ConnectAllPreserves(servers: Servers, items: seq<(string, ConfigContainer.ServerParams)>, connect: Connector)
    requires UniqueKeys(servers) && Namespaces(servers)
    ensures UniqueKeys(ConnectAll(servers, items, connect).0) && Namespaces(ConnectAll(servers, items, connect).0)
    decreases |items|
  {
    if items != [] {
      match connect(items[0].0, items[0].1)
      case Err(e) =>
      case Ok(c) =>
        var v := SessionOf(items[0].0, c);
        PutPreservesUniqueKeys(servers, items[0].0, v);
        SessionOfNamespaced(items[0].0, c);
        PutPreservesNamespaces(servers, items[0].0, v);
        ConnectAllPreserves(Put(servers, items[0].0, v), items[1..], connect);
    }
  }

  /**
    Connecting reports an error exactly when some configured entry fails to
    connect, and then it is the first failing entry's error.
   */
  lemma {:induction false} ConnectAllError(servers: Servers, items: seq<(string, ConfigContainer.ServerParams)>, connect: Connector)
    ensures var k := Succeeding(items, connect);
      ConnectAll(servers, items, connect).1 == if k == |items| then None else Some(connect(items[k].0, items[k].1).error)
    decreases |items|
  {
    if items != [] {
      match connect(items[0].0, items[0].1)
      case Err(e) =>
      case Ok(c) =>
        ConnectAllError(Put(servers, items[0].0, SessionOf(items[0].0, c)), items[1..], connect);
    }
  }

  /**
    Connecting entries with distinct names none of which is stored yet appends
    one session per leading successful entry, in configuration order, each
    under its name and holding its namespaced tools.
   */
  lemma {:induction false} ConnectAllAppends(servers: Servers, items: seq<(string, ConfigContainer.ServerParams)>, connect: Connector)
    requires UniqueKeys(items)
    requires forall i :: 0 <= i < |items| ==> items[i].0 !in Keys(servers)
    ensures var r := ConnectAll(servers, items, connect).0;
      && |r| == |servers| + Succeeding(items, connect)
      && r[..|servers|] == servers
      && forall j :: 0 <= j < Succeeding(items, connect) ==>
           r[|servers| + j] == (items[j].0, SessionOf(items[j].0, connect(items[j].0, items[j].1).value))
    decreases |items|
  {
    if items != [] && connect(items[0].0, items[0].1).Ok? {
      var c := connect(items[0].0, items[0].1).value;
      var next := servers + [(items[0].0, SessionOf(items[0].0, c))];
      ConnectAllStep(servers, items, connect);
      var r := ConnectAll(next, items[1..], connect).0;
      var k := Succeeding(items, connect);
      assert k == 1 + Succeeding(items[1..], connect);
      ConnectAllAppends(next, items[1..], connect);
      assert r[..|servers|] == r[..|next|][..|servers|];
      forall j | 0 <= j < k
        ensures r[|servers| + j] == (items[j].0, SessionOf(items[j].0, connect(items[j].0, items[j].1).value))
      {
        if j > 0 {
          assert items[1..][j - 1] == items[j];
          assert r[|next| + (j - 1)] == r[|servers| + j];
        } else {
          assert r[|servers|] == r[..|next|][|servers|] == next[|servers|];
        }
      }
    }
  }

  /** One successful step of `ConnectAllAppends`: the entry is appended and the rest still meet the requirements. */
  lemma ConnectAllStep(servers: Servers, items: seq<(string, ConfigContainer.ServerParams)>, connect: Connector)
    requires UniqueKeys(items)
    requires forall i :: 0 <= i < |items| ==> items[i].0 !in Keys(servers)
    requires items != [] && connect(items[0].0, items[0].1).Ok?
    ensures var next := servers + [(items[0].0, SessionOf(items[0].0, connect(items[0].0, items[0].1).value))];
      && ConnectAll(servers, items, connect) == ConnectAll(next, items[1..], connect)
      && UniqueKeys(items[1..])
      && forall i :: 0 <= i < |items[1..]| ==> items[1..][i].0 !in Keys(next)
  {
    var c := connect(items[0].0, items[0].1).value;
    var e0 := (items[0].0, SessionOf(items[0].0, c));
    PutFresh(servers, e0.0, e0.1);
    var next := servers + [e0];
    assert Keys(next) == Keys(servers) + [items[0].0];
    assert forall i :: 0 <= i < |items[1..]| ==> items[1..][i] == items[i + 1];
  }

  // ---------------------------------------------------------------------------
  // Leaving the `async with` block
  // ---------------------------------------------------------------------------

  /** How releasing the opened transports and sessions (`exit_stack.aclose()`) ended. */
  datatype CloseOutcome = Closed | CloseValueError(detail: string) | CloseFailed(detail: string)

  /**
    `__aexit__`: close everything; a ValueError from closing is swallowed, any
    other error from closing propagates in place of the pending one. It
    always returns None, so an exception raised in the block is never
    suppressed: leaving the block raises exactly when the block raised or
    closing failed other than with a ValueError.
   */
  function ExitContext(close: CloseOutcome, pending: Option<string>): (propagated: Option<string>)
    ensures propagated.Some? <==> pending.Some? || close.CloseFailed?
    ensures !close.CloseFailed? ==> propagated == pending
    ensures close.CloseFailed? ==> propagated == Some(close.detail)
  {
    match close
    case CloseFailed(detail) => Some(detail)
    case _ => pending
  }

  // ---------------------------------------------------------------------------
  // The client object
  // ---------------------------------------------------------------------------

  /** The fields of a client, as a value. */
  datatype ClientState = ClientState(servers: Servers, selectedServer: Servers, messages: seq<Message>)

  /** The result of the rest of a run, preceded by what was produced before it. */
  function AfterStream(chunks: seq<ChatResponse>, toolMessages: seq<string>, toolParts: nat, r: StreamResult): StreamResult
  {
    StreamResult(chunks + r.chunks, toolMessages + r.toolMessages, toolParts + r.toolParts, r.failure)
  }

  /** The result of the rest of a turn, preceded by the chunks and requests of earlier rounds. */
  function AfterRounds(chunks: seq<ChatResponse>, requests: seq<ChatRequest>, t: TurnResult): TurnResult
  {
    t.(chunks := chunks + t.chunks, requests := requests + t.requests)
  }

  lemma ConcatAssoc<T>(a: seq<T>, b: seq<T>, c: seq<T>)
    ensures (a + b) + c == a + (b + c)
  {
  }

  lemma AfterStreamAssoc(c1: seq<ChatResponse>, t1: seq<string>, n1: nat, c2: seq<ChatResponse>, t2: seq<string>, n2: nat, r: StreamResult)
    ensures AfterStream(c1, t1, n1, AfterStream(c2, t2, n2, r)) == AfterStream(c1 + c2, t1 + t2, n1 + n2, r)
  {
    assert c1 + (c2 + r.chunks) == (c1 + c2) + r.chunks;
    assert t1 + (t2 + r.toolMessages) == (t1 + t2) + r.toolMessages;
  }

  /** What one part of a stream produces on its own. */
  function PartResult(scope: Servers, part: Part, callTool: CallTool): StreamResult
  {
    if part.content != "" then StreamResult([ChatResponse(AssistantRole, part.content)], [], 0, None)
    else if part.toolCalls == [] then StreamResult([], [], 0, None)
    else match DispatchAll(scope, part.toolCalls, callTool)
      case Err(f) => StreamResult([], [], 0, Some(f))
      case Ok(ms) => StreamResult(ToolChunks(ms), ms, 1, None)
  }

  /** One part of a stream, consumed: the rest of the run follows what that part produced, unless it raised. */
  lemma ProcessStreamStep(scope: Servers, stream: Stream, i: nat, callTool: CallTool)
    requires i < |stream|
    ensures var p := PartResult(scope, stream[i], callTool);
      ProcessStream(scope, stream[i..], callTool) ==
        if p.failure.Some? then p else AfterStream(p.chunks, p.toolMessages, p.toolParts, ProcessStream(scope, stream[i + 1..], callTool))
  {
    assert stream[i..][0] == stream[i] && stream[i..][1..] == stream[i + 1..];
    var rest := ProcessStream(scope, stream[i + 1..], callTool);
    assert [] + rest.chunks == rest.chunks && [] + rest.toolMessages == rest.toolMessages;
  }

  lemma ToolMessagesSnoc(ms: seq<string>, m: string)
    ensures ToolMessages(ms + [m]) == ToolMessages(ms) + [Message(ToolRole, m)]
  {
    ToolMessagesAppend(ms, [m]);
  }

  /**
    `OllamaMCPClient`: the connected servers, the selected scope the chat
    sees, and the chat history. The chat endpoint and the opened sessions
    are reached through the functions passed to each operation.
   */
  class OllamaMcpClient {
    var servers: Servers
    var selectedServer: Servers
    var messages: seq<Message>

    /** The client's state as a value. */
    ghost function State(): ClientState
      reads this
    {
      ClientState(servers, selectedServer, messages)
    }

    /** Both dicts are well formed and every stored tool is namespaced under its server. */
    ghost predicate Valid()
      reads this
    {
      UniqueKeys(servers) && Namespaces(servers) && UniqueKeys(selectedServer) && Namespaces(selectedServer)
    }

    /** `__init__`: nothing connected, nothing selected, an empty history. */
    constructor ()
      ensures servers == [] && selectedServer == [] && messages == []
      ensures Valid()
    {
      servers := [];
      selectedServer := [];
      messages := [];
    }

    /** `create`: a fresh client connected to every configured server. */
    static method Create(config: ConfigContainer.ConfigContainer, connect: Connector) returns (client: OllamaMcpClient, err: Option<string>)
      ensures fresh(client)
      ensures (client.servers, err) == ConnectAll([], config.root, connect)
      ensures client.selectedServer == if err.None? then client.servers else []
      ensures client.messages == []
      ensures client.Valid()
    {
      client := new OllamaMcpClient();
      err := client.ConnectToMultipleServers(config, connect);
    }

    /**
      `_connect_to_multiple_servers`: connect to each configured server in
      order and store its session; on success every connected server is
      selected, on an error the selection is left as it was.
     */
    method ConnectToMultipleServers(config: ConfigContainer.ConfigContainer, connect: Connector) returns (err: Option<string>)
      requires Valid()
      modifies this
      ensures (servers, err) == ConnectAll(old(servers), config.root, connect)
      ensures selectedServer == if err.None? then servers else old(selectedServer)
      ensures messages == old(messages)
      ensures Valid()
    {
      var items := ConfigContainer.Items(config);
      var i := 0;
      while i < |items|
        invariant 0 <= i <= |items|
        invariant ConnectAll(old(servers), items, connect) == ConnectAll(servers, items[i..], connect)
        invariant UniqueKeys(servers) && Namespaces(servers)
        invariant selectedServer == old(selectedServer) && messages == old(messages)
      {
        var (name, params) := items[i];
        assert items[i..][1..] == items[i + 1..];
        match connect(name, params) {
          case Err(e) =>
            return Some(e);
          case Ok(c) =>
            var session := SessionOf(name, c);
            PutPreservesUniqueKeys(servers, name, session);
            SessionOfNamespaced(name, c);
            PutPreservesNamespaces(servers, name, session);
            servers := Put(servers, name, session);
        }
        i := i + 1;
      }
      selectedServer := servers;
      err := None;
    }

    /** `get_tools`: the tools of the selected servers, chained in selection order. */
    function GetTools(): (tools: seq<Tool>)
      reads this
      ensures |tools| == ToolCount(selectedServer)
    {
      CatalogLength(selectedServer);
      Catalog(selectedServer)
    }

    /**
      `select_server`: the selection becomes those connected servers whose
      names are listed, in connection order; names that match no server are
      ignored.
     */
    method SelectServer(names: seq<string>)
      requires Valid()
      modifies this
      ensures selectedServer == Restrict(servers, names)
      ensures servers == old(servers) && messages == old(messages)
      ensures Valid()
    {
      RestrictPreservesUniqueKeys(servers, names);
      RestrictPreservesNamespaces(servers, names);
      selectedServer := Restrict(servers, names);
    }

    /** `prepare_prompt`: the history restarts from the system prompt alone. */
    method PreparePrompt()
      modifies this
      ensures messages == [Message(SystemRole, SystemPrompt)]
      ensures servers == old(servers) && selectedServer == old(selectedServer)
    {
      messages := [Message(SystemRole, SystemPrompt)];
    }

    /** `_tool_call`: dispatch each call in order through the selected scope. */
    method DispatchToolCalls(calls: seq<ToolCall>, callTool: CallTool) returns (r: Result<seq<string>, Failure>)
      ensures r == DispatchAll(selectedServer, calls, callTool)
    {
      var done: seq<string> := [];
      var i := 0;
      DispatchProgressStart(selectedServer, calls, callTool);
      while i < |calls|
        invariant DispatchProgress(selectedServer, calls, callTool, i, done)
      {
        DispatchProgressStep(selectedServer, calls, callTool, i, done);
        var split := Split(calls[i].name, Separator);
        match Lookup(selectedServer, split[0]) {
          case None =>
            return Err(KeyError(split[0]));
          case Some(session) =>
            if |split| < 2 {
              return Err(IndexError);
            }
            var reply := callTool(session.handle, split[1], calls[i].arguments);
            done := done + [ToolMessage(calls[i], reply)];
        }
        i := i + 1;
      }
      DispatchProgressEnd(selectedServer, calls, callTool, done);
      return Ok(done);
    }

    /**
      The `async for part in stream` loop: yield each part's content as an
      assistant chunk, or, for a part without content, dispatch its tool calls
      and yield and append each resulting message as a `tool` message.
     */
    method ConsumeStream(stream: Stream, callTool: CallTool) returns (r: StreamResult)
      modifies this
      ensures r == ProcessStream(selectedServer, stream, callTool)
      ensures messages == old(messages) + ToolMessages(r.toolMessages)
      ensures servers == old(servers) && selectedServer == old(selectedServer)
    {
      var chunks: seq<ChatResponse> := [];
      var toolMessages: seq<string> := [];
      var count: nat := 0;
      var i := 0;
      while i < |stream|
        invariant 0 <= i <= |stream|
        invariant servers == old(servers) && selectedServer == old(selectedServer)
        invariant messages == old(messages) + ToolMessages(toolMessages)
        invariant ProcessStream(selectedServer, stream, callTool) ==
          AfterStream(chunks, toolMessages, count, ProcessStream(selectedServer, stream[i..], callTool))
      {
        ProcessStreamStep(selectedServer, stream, i, callTool);
        ghost var before := messages;
        var p := ConsumePart(stream[i], callTool);
        ToolMessagesAppend(toolMessages, p.toolMessages);
        assert messages == old(messages) + ToolMessages(toolMessages + p.toolMessages) by {
          assert messages == before + ToolMessages(p.toolMessages);
          ConcatAssoc(old(messages), ToolMessages(toolMessages), ToolMessages(p.toolMessages));
        }
        if p.failure.Some? {
          return AfterStream(chunks, toolMessages, count, p);
        }
        AfterStreamAssoc(chunks, toolMessages, count, p.chunks, p.toolMessages, p.toolParts,
                         ProcessStream(selectedServer, stream[i + 1..], callTool));
        chunks := chunks + p.chunks;
        toolMessages := toolMessages + p.toolMessages;
        count := count + p.toolParts;
        i := i + 1;
      }
      assert stream[i..] == [];
      assert chunks + [] == chunks && toolMessages + [] == toolMessages;
      return StreamResult(chunks, toolMessages, count, None);
    }

    /**
      One iteration of the `async for part in stream` loop: a part with
      content yields it as an assistant chunk; otherwise a part with tool calls
      dispatches them, counts once, and yields and appends each message.
     */
    method ConsumePart(part: Part, callTool: CallTool) returns (r: StreamResult)
      modifies this
      ensures r == PartResult(selectedServer, part, callTool)
      ensures messages == old(messages) + ToolMessages(r.toolMessages)
      ensures servers == old(servers) && selectedServer == old(selectedServer)
    {
      if part.content != "" {
        return StreamResult([ChatResponse(AssistantRole, part.content)], [], 0, None);
      } else if part.toolCalls != [] {
        var dispatched := DispatchToolCalls(part.toolCalls, callTool);
        match dispatched {
          case Err(f) =>
            return StreamResult([], [], 0, Some(f));
          case Ok(ms) =>
            AppendToolMessages(ms);
            return StreamResult(ToolChunks(ms), ms, 1, None);
        }
      }
      return StreamResult([], [], 0, None);
    }

    /** The inner `for tool_message in tool_messages` loop: append each message to the history as a `tool` message. */
    method AppendToolMessages(ms: seq<string>)
      modifies this
      ensures messages == old(messages) + ToolMessages(ms)
      ensures servers == old(servers) && selectedServer == old(selectedServer)
    {
      var k := 0;
      while k < |ms|
        invariant 0 <= k <= |ms|
        invariant messages == old(messages) + ToolMessages(ms[..k])
        invariant servers == old(servers) && selectedServer == old(selectedServer)
      {
        assert ms[..k + 1] == ms[..k] + [ms[k]];
        ToolMessagesSnoc(ms[..k], ms[k]);
        messages := messages + [Message(ToolRole, ms[k])];
        k := k + 1;
      }
      assert ms[..k] == ms;
    }

    /**
      `_recursive_prompt`: prompt with the current history and the selected
      tools, consume the answer, and prompt again while the answer held a
      tool-call part.
     */
    method RecursivePrompt(model: string, script: seq<Stream>, callTool: CallTool) returns (t: TurnResult)
      modifies this
      ensures t == Resolve(model, old(messages), selectedServer, script, callTool)
      ensures messages == t.history
      ensures servers == old(servers) && selectedServer == old(selectedServer)
    {
      var chunks: seq<ChatResponse> := [];
      var requests: seq<ChatRequest> := [];
      var rest := script;
      while true
        invariant servers == old(servers) && selectedServer == old(selectedServer)
        invariant Resolve(model, old(messages), selectedServer, script, callTool) ==
          AfterRounds(chunks, requests, Resolve(model, messages, selectedServer, rest, callTool))
        decreases |rest|
      {
        var request := ChatRequest(model, messages, GetTools());
        if rest == [] {
          ConcatAssoc(chunks, [], []);
          return TurnResult(chunks, messages, requests + [request], [], Some(ChatEndpointError));
        }
        ghost var before := messages;
        var r := ConsumeStream(rest[0], callTool);
        if !(r.failure.None? && r.toolParts > 0) {
          assert chunks + r.chunks == chunks + (r.chunks + []);
          return TurnResult(chunks + r.chunks, messages, requests + [request], rest[1..], r.failure);
        }
        ghost var next := Resolve(model, messages, selectedServer, rest[1..], callTool);
        assert Resolve(model, before, selectedServer, rest, callTool) == AfterRounds(r.chunks, [request], next);
        ConcatAssoc(chunks, r.chunks, next.chunks);
        ConcatAssoc(requests, [request], next.requests);
        chunks := chunks + r.chunks;
        requests := requests + [request];
        rest := rest[1..];
      }
    }

    /**
      `process_message`: append the user's message to the history and resolve
      it with the given model, or the predefined one when none is given.
     */
    method ProcessMessage(message: string, model: Option<string>, script: seq<Stream>, callTool: CallTool) returns (t: TurnResult)
      modifies this
      ensures t == Resolve(if model.Some? then model.value else DefaultModel,
                           old(messages) + [Message(UserRole, message)], selectedServer, script, callTool)
      ensures messages == t.history
      ensures servers == old(servers) && selectedServer == old(selectedServer)
    {
      var name := if model.Some? then model.value else DefaultModel;
      messages := messages + [Message(UserRole, message)];
      t := RecursivePrompt(name, script, callTool);
    }
  }
}
