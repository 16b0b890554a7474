# Ollama MCP client: orchestration core

This project models the orchestration core of an MCP client that sits in front of an
Ollama chat model, and proves properties of that model. The client connects to several
MCP tool servers. It publishes their tools to the model under namespaced names
(`<server>/<tool>`) and streams a chat turn. When the model asks for tool calls, the
client dispatches them to the right server, feeds the results back and prompts again.

- `OllamaClient.OllamaMcpClient` is a class with the three fields the source mutates:
  - `servers`, the connected sessions by server name;
  - `selectedServer`, the scope the model may see and call;
  - `messages`, the conversation history.

  Its methods are proved against specification functions:
  - `ConnectAll` for connecting;
  - `DispatchAll` for `_tool_call`;
  - `ProcessStream` for one streamed response;
  - `Resolve` for the resolve loop of `_recursive_prompt`.
- `ConfigContainer` models the ordered server configuration: indexing, `items()` and
  the error mapping of `form_file`.
- `OllamaExample` models the interactive loop of the example program. It covers the line
  classifier (`quit`, `clear`, `server <name>`, chat) and the loop that drives the client
  (`RunCli`, specified by `CliRun`).
- `Dict` holds Python dict semantics: an insertion-ordered sequence of entries, with
  `d[k]`, `d[k] = v` and a filtering comprehension. `Text` holds `str.split` on one
  character. `Json` holds the rendering of tool arguments into messages.

The external collaborators are parameters of the model:

- **The chat endpoint** is a finite script of streams, consumed one stream per prompt.
  Prompting after the script is used up fails with `ChatEndpointError`. This bounds the
  resolve loop, which the source does not bound.
- **`call_tool`** is a function `CallTool` from a session handle, a tool name and
  arguments to either returned content items or a raised message.
- **Connecting a server** (stdio transport, `initialize`, `list_tools`) is a function
  `Connector` that gives either the session's handle and listed tools, or an error.

`_tool_call` (ollama_client.py, lines 192-194) splits a tool name on `/`, looks up
the first piece in the selected scope and then reads the second piece, all before its
`try`. So a prefix outside the scope raises KeyError. A name without `/` raises KeyError
too, unless the whole name is a selected server, in which case reading the missing
second piece raises IndexError. Either error propagates out of the turn; neither becomes
an error message. Only the failures of `call_tool` and of reading its reply, inside the
`try`, become "Error in tool" messages.

## Model

| member | source | states |
|---|---|---|
| Dict.Lookup | MCP/ollama-mcp-client/src/clients/ollama_client.py:193 | `d[k]` fails (Python's KeyError) exactly when `k` is not a key of the dict |
| Dict.Put | MCP/ollama-mcp-client/src/clients/ollama_client.py:89 | `d[k] = v` keeps the key order when `k` is present and appends `k` otherwise |
| Dict.PutFresh | MCP/ollama-mcp-client/src/clients/ollama_client.py:89 | assigning a new key appends exactly that entry at the end |
| Dict.LookupAfterPut | MCP/ollama-mcp-client/src/clients/ollama_client.py:89 | after `d[k] = v`, `d[k]` is `v` and every other key keeps its value |
| Dict.PutPreservesUniqueKeys | MCP/ollama-mcp-client/src/clients/ollama_client.py:89 | assignment keeps every key at most once |
| Dict.LookupAt | MCP/ollama-mcp-client/build/lib/abstract/config_container.py:18-19 | looking up the i-th key gives the i-th value |
| Dict.Restrict | MCP/ollama-mcp-client/src/clients/ollama_client.py:130 | the comprehension keeps exactly the keys that are in the dict and in the list |
| Dict.LookupRestrict | MCP/ollama-mcp-client/src/clients/ollama_client.py:130 | a kept key keeps its value; a key not in the list is absent |
| Dict.RestrictIsSubsequence | MCP/ollama-mcp-client/src/clients/ollama_client.py:130 | the comprehension keeps the dict's order |
| Dict.RestrictEntries | MCP/ollama-mcp-client/src/clients/ollama_client.py:130 | every kept entry is an entry of the original dict |
| Dict.RestrictPreservesUniqueKeys | MCP/ollama-mcp-client/src/clients/ollama_client.py:130 | the comprehension yields a well-formed dict |
| Text.Split | MCP/ollama-mcp-client/src/clients/ollama_client.py:192 | `str.split` gives at least one piece, and no piece holds the separator |
| Text.JoinSplit | MCP/ollama-mcp-client/src/clients/ollama_client.py:192 | joining the pieces with the separator gives back the string |
| Text.SplitAtFirst | MCP/ollama-mcp-client/src/clients/ollama_client.py:192 | the first piece is the text before the first separator |
| Text.SplitNoSeparator | MCP/ollama-mcp-client/src/clients/ollama_client.py:192-194 | a name without separator splits into one piece, so there is no `split[1]` |
| Text.SplitPair | MCP/ollama-mcp-client/src/clients/ollama_client.py:192-194 | `server/tool` splits into exactly the server and the tool |
| ConfigContainer.GetItem | MCP/ollama-mcp-client/build/lib/abstract/config_container.py:14-19 | an empty root raises ValueError("No configurations found"); an index in range (negative counts from the end) gives that entry in key order; out of range raises IndexError |
| ConfigContainer.ItemsAgreeWithGetItem | MCP/ollama-mcp-client/build/lib/abstract/config_container.py:18-22 | the i-th item is `config[i]` and `config[i - len]` |
| ConfigContainer.FormFile | MCP/ollama-mcp-client/build/lib/abstract/config_container.py:34-43 | a missing file or bad JSON gives "Error reading file: ..."; any other read failure (PermissionError, IsADirectoryError, UnicodeDecodeError) propagates unchanged; a validation failure gives "Error processing configuration: ..."; otherwise the validated container |
| OllamaClient.Namespaced | MCP/ollama-mcp-client/src/clients/ollama_client.py:113-123 | one tool per listed tool, in listing order, named `server/tool`, with description and schema unchanged |
| OllamaClient.NamespacedDistinct | MCP/ollama-mcp-client/src/clients/ollama_client.py:113-123 | distinct listed names give distinct namespaced names |
| OllamaClient.NamespacedHasPrefix | MCP/ollama-mcp-client/src/clients/ollama_client.py:117 | every namespaced name starts with its server name and the separator |
| OllamaClient.PrefixDetermined | MCP/ollama-mcp-client/src/clients/ollama_client.py:117 | server names without `/` are determined by the namespaced name |
| OllamaClient.SessionOfNamespaced | MCP/ollama-mcp-client/src/clients/ollama_client.py:112-124 | every tool of a connected session carries that server's prefix |
| OllamaClient.CatalogLength | MCP/ollama-mcp-client/src/clients/ollama_client.py:126-127 | the catalog's length is the sum of the scope's tool counts |
| OllamaClient.CatalogAppend | MCP/ollama-mcp-client/src/clients/ollama_client.py:126-127 | the catalog of a scope is the concatenation of its servers' tool lists, in scope order |
| OllamaClient.CatalogMembership | MCP/ollama-mcp-client/src/clients/ollama_client.py:126-127 | a tool is in the catalog exactly when some server of the scope lists it |
| OllamaClient.CatalogNamesDistinct | MCP/ollama-mcp-client/src/clients/ollama_client.py:126-127 | with unique server names without `/` and distinct names per server, catalog names are distinct |
| OllamaClient.ToolMessage | MCP/ollama-mcp-client/src/clients/ollama_client.py:198-204 | a reply whose first item is text gives "tool: name, args, return: text"; anything else (raised, no content, non-text) gives a message starting "Error in tool: " |
| OllamaClient.Dispatch | MCP/ollama-mcp-client/src/clients/ollama_client.py:191-207 | a prefix outside the selected scope gives KeyError; a missing tool piece gives IndexError; otherwise the tool's message from the session the scope holds under the prefix |
| OllamaClient.DispatchAllOk | MCP/ollama-mcp-client/src/clients/ollama_client.py:189-208 | `_tool_call` succeeds exactly when every call does, with one message per call in request order |
| OllamaClient.DispatchAllErr | MCP/ollama-mcp-client/src/clients/ollama_client.py:189-208 | a failing `_tool_call` raises the lookup error of its first failing call, never a chat endpoint error |
| OllamaClient.DispatchNamespacedTool | MCP/ollama-mcp-client/src/clients/ollama_client.py:192-199 | a `server/tool` name reaches the selected session under that server, with the tool's own name |
| OllamaClient.DispatchOutsideScope | MCP/ollama-mcp-client/src/clients/ollama_client.py:193 | a server outside the selected scope raises KeyError, even if it is connected |
| OllamaClient.DispatchWithoutSeparator | MCP/ollama-mcp-client/src/clients/ollama_client.py:192-194 | a name without `/` raises IndexError when it is a server name and KeyError otherwise |
| OllamaClient.DispatchTruncatesToolName | MCP/ollama-mcp-client/src/clients/ollama_client.py:192-194 | in `server/a/b` only `a` is called |
| OllamaClient.ProcessStreamSummary | MCP/ollama-mcp-client/src/clients/ollama_client.py:173-183 | the tool chunks are the tool messages; without failure, assistant chunks are the non-empty contents and the tool-part count is that of the stream; no failure exactly when every tool part's dispatch succeeds |
| OllamaClient.ResolveHistory | MCP/ollama-mcp-client/src/clients/ollama_client.py:162-187 | the loop only appends: the final history is the initial one followed by one tool message per tool chunk |
| OllamaClient.ResolveRounds | MCP/ollama-mcp-client/src/clients/ollama_client.py:173-187 | every round but the last had a tool part; a round without failure is the last exactly when it had no tool part; the unused script is what follows the rounds |
| OllamaClient.ResolveRequests | MCP/ollama-mcp-client/src/clients/ollama_client.py:166-171 | every prompt sends the model, the catalog of the selected scope and a prefix of the final history, the first one the starting history |
| OllamaClient.RepromptIffToolPart | MCP/ollama-mcp-client/src/clients/ollama_client.py:185-187 | a stream without failure is followed by another prompt exactly when it had a tool part |
| OllamaClient.PutPreservesNamespaces | MCP/ollama-mcp-client/src/clients/ollama_client.py:89 | storing a session whose tools carry its prefix keeps every server's tools prefixed |
| OllamaClient.RestrictPreservesNamespaces | MCP/ollama-mcp-client/src/clients/ollama_client.py:130 | narrowing the scope keeps every server's tools prefixed |
| OllamaClient.ConnectAllPreserves | MCP/ollama-mcp-client/src/clients/ollama_client.py:86-89 | connecting keeps server names unique and every tool prefixed by its server |
| OllamaClient.ConnectAllError | MCP/ollama-mcp-client/src/clients/ollama_client.py:86-89 | connecting fails with the error of the first failing item, if there is one |
| OllamaClient.ConnectAllAppends | MCP/ollama-mcp-client/src/clients/ollama_client.py:86-89 | the connected servers come after the old ones, one per item in config order, up to the first failure |
| OllamaClient.ExitContext | MCP/ollama-mcp-client/src/clients/ollama_client.py:73-77 | leaving the block raises exactly when the block raised or closing failed with something other than ValueError; when closing succeeds or raises ValueError, the block's own exception (if any) leaves unchanged; a non-ValueError from closing replaces it |
| OllamaClient.OllamaMcpClient.constructor | MCP/ollama-mcp-client/src/clients/ollama_client.py:63-68 | no servers, nothing selected, empty history |
| OllamaClient.OllamaMcpClient.Create | MCP/ollama-mcp-client/src/clients/ollama_client.py:79-84 | a fresh client connected over the config's items in order; on success the scope is all servers |
| OllamaClient.OllamaMcpClient.ConnectToMultipleServers | MCP/ollama-mcp-client/src/clients/ollama_client.py:86-92 | servers become `ConnectAll` of the config; after full success the selected scope is all servers; history unchanged; the namespacing invariant holds |
| OllamaClient.OllamaMcpClient.GetTools | MCP/ollama-mcp-client/src/clients/ollama_client.py:126-127 | as many tools as the selected servers advertise together |
| OllamaClient.OllamaMcpClient.SelectServer | MCP/ollama-mcp-client/src/clients/ollama_client.py:129-132 | the scope becomes the connected servers whose name is listed, in connection order; unknown names add nothing; servers and history unchanged |
| OllamaClient.OllamaMcpClient.PreparePrompt | MCP/ollama-mcp-client/src/clients/ollama_client.py:148 | the history becomes exactly one system message; servers and scope unchanged |
| OllamaClient.OllamaMcpClient.DispatchToolCalls | MCP/ollama-mcp-client/src/clients/ollama_client.py:189-208 | the loop computes `DispatchAll` over the selected scope |
| OllamaClient.OllamaMcpClient.ConsumeStream | MCP/ollama-mcp-client/src/clients/ollama_client.py:173-183 | the loop over the stream computes `ProcessStream` and appends exactly its tool messages, as tool role, to the history |
| OllamaClient.OllamaMcpClient.ConsumePart | MCP/ollama-mcp-client/src/clients/ollama_client.py:175-183 | content first; otherwise the part's calls are dispatched, and their messages are yielded and appended |
| OllamaClient.OllamaMcpClient.AppendToolMessages | MCP/ollama-mcp-client/src/clients/ollama_client.py:181-183 | the messages are appended in order, with tool role |
| OllamaClient.OllamaMcpClient.RecursivePrompt | MCP/ollama-mcp-client/src/clients/ollama_client.py:162-187 | the prompt loop computes `Resolve` from the current history and scope, and leaves its history in `messages` |
| OllamaClient.OllamaMcpClient.ProcessMessage | MCP/ollama-mcp-client/src/clients/ollama_client.py:153-160 | appends one user message, then resolves with the given model or "customqwen:latest" |
| OllamaExample.Strip | MCP/ollama-mcp-client/examples/ollama_example.py:21 | the stripped line is the slice between leading and trailing whitespace and neither starts nor ends with whitespace |
| OllamaExample.StripIdempotent | MCP/ollama-mcp-client/examples/ollama_example.py:21 | stripping twice is stripping once |
| OllamaExample.StripUnchanged | MCP/ollama-mcp-client/examples/ollama_example.py:21 | a line without surrounding whitespace is unchanged |
| OllamaExample.LowerCases | MCP/ollama-mcp-client/examples/ollama_example.py:23 | the lowered line has no upper-case letter, and a line without one is unchanged |
| OllamaExample.WordRun | MCP/ollama-mcp-client/examples/ollama_example.py:29 | `\w+` takes the longest leading run of word characters |
| OllamaExample.WordRunUnique | MCP/ollama-mcp-client/examples/ollama_example.py:29 | any maximal leading run of word characters is the greedy one |
| OllamaExample.MatchServerIff | MCP/ollama-mcp-client/examples/ollama_example.py:29-30 | the pattern matches with group `n` exactly when the text is "server " then `n`, a non-empty maximal run of word characters, then anything |
| OllamaExample.ClassifyCases | MCP/ollama-mcp-client/examples/ollama_example.py:21-34 | exactly "quit" and "clear" (lowered, stripped) are commands; a `server` match selects the captured name; everything else is chat with the stripped, unlowered text |
| OllamaExample.SelectedNameShape | MCP/ollama-mcp-client/examples/ollama_example.py:29-31 | a selected name is non-empty, made of word characters and lower case |
| OllamaExample.ClassifyBareServer | MCP/ollama-mcp-client/examples/ollama_example.py:29-34 | "server" without a name is sent to the model |
| OllamaExample.ClassifyEmptyLine | MCP/ollama-mcp-client/examples/ollama_example.py:34 | the empty line is sent to the model |
| OllamaExample.ClassifyServerLine | MCP/ollama-mcp-client/examples/ollama_example.py:29-31 | "Server FS-1" selects the one server "fs" |
| OllamaExample.ClassifySeparatedQuit | MCP/ollama-mcp-client/examples/ollama_example.py:21-25 | a line of a unit separator (character 31) followed by "quit" strips to "quit" and ends the session |
| OllamaExample.LowerServerLine | MCP/ollama-mcp-client/examples/ollama_example.py:23 | "Server FS-1" lowers to "server fs-1" |
| OllamaExample.ServerLineMatches | MCP/ollama-mcp-client/examples/ollama_example.py:29-30 | the pattern captures "fs" in "server fs-1" |
| OllamaExample.EndOfInputNeverExits | MCP/ollama-mcp-client/examples/ollama_example.py:19-40 | as written, once input is exhausted no number of iterations exits, and each logs one more EOFError |
| OllamaExample.PerformConsumesScript | MCP/ollama-mcp-client/examples/ollama_example.py:23-37 | a line uses up a prefix of the chat script and never changes the connected servers |
| OllamaExample.StepConsumesScript | MCP/ollama-mcp-client/examples/ollama_example.py:19-40 | the same for one iteration, the end of input included |
| OllamaExample.CliRunConsumesScript | MCP/ollama-mcp-client/examples/ollama_example.py:19-40 | (corrected loop, see Findings) a session uses up a prefix of the chat script and never changes the connected servers |
| OllamaExample.PerformLogs | MCP/ollama-mcp-client/examples/ollama_example.py:39-40 | an iteration logs at most the one exception of its turn |
| OllamaExample.CliRunLogsFailuresOnly | MCP/ollama-mcp-client/examples/ollama_example.py:19-40 | (corrected loop, see Findings) a session logs at most one exception per line, each a failed turn, and nothing for the end of input |
| OllamaExample.ChatLineStep | MCP/ollama-mcp-client/examples/ollama_example.py:34-37 | a chat line appends the stripped text as a user message, keeps the scope, and prints only the assistant chunks |
| OllamaExample.PrintAssistant | MCP/ollama-mcp-client/examples/ollama_example.py:35-37 | only assistant-role contents are printed, in order |
| OllamaExample.RunLine | MCP/ollama-mcp-client/examples/ollama_example.py:20-40 | one iteration does exactly what `Perform` says for the classified line, and keeps the namespacing invariant |
| OllamaExample.RunCli | MCP/ollama-mcp-client/examples/ollama_example.py:19-40 | (corrected loop, see Findings) the loop over the input lines computes `CliRun`: final client state, printed text, logged exceptions and unused script |

## Left out

- async/await: everything is sequential, and an async generator is modelled as the list of what it yielded before it finished or raised.
- Logging, colorlog and `print` formatting are side effects and are not modelled. The logger calls in the source do not change any state.
- The system prompt text is an opaque constant `SystemPrompt`.
- The internals of `mcp` are not modelled: `stdio_client`, `ClientSession` and `AsyncExitStack`. They become the `Connector` and `CallTool` parameters and the `CloseOutcome` of closing. So is the order in which the exit stack releases sessions.
- OllamaClient.ExitContext: it says which error leaves `async with`. It does not model what closing releases.
- OllamaClient.OllamaMcpClient.Create: on a failed connection it reports the first error. The sessions opened before that error are never released: the exception leaves `create` before `async with` (ollama_example.py, line 14) can run `__aexit__`, and app.py (line 38) never closes the client either. The model does not track open sessions, so it does not state this.
- The streaming of `ollama.AsyncClient.chat` is replaced by a finite script of streams. A request is recorded but does not influence the response.
- pydantic's validation of `StdioServerParameters` is the `validate` parameter of `FormFile`. Reading the file is the `FileRead` parameter. pydantic builds a dict, so a container `validate` returns must satisfy `ConfigContainer.Valid()` (unique keys), which `GetItem` requires; the model takes this from the parameter and does not prove it.
- `select_server` returns `self`; the method chaining this allows is not modelled.
- `self.selected_server = self.servers` makes the two fields alias one dict in the source. Nothing mutates that dict afterwards, so the model copies the value.
- `str.strip`, `str.lower` and `\w` are modelled on ASCII: `IsSpace` is the ASCII characters for which `str.isspace()` holds, including the separators 28 to 31. Unicode whitespace (such as 0x85 and 0xA0), case mapping and word characters are not modelled.
- `CallTool` is a function of the session handle, the tool name and the arguments, so two identical calls get the same reply. The real tools are stateful I/O (one returns a random number). No proved property depends on replies differing between identical calls; the model simply cannot express it.
- Python's `repr` of tool arguments is rendered for integers, strings, booleans, None, lists and dicts. Floats are not represented, and quotes and escapes inside strings are simplified. pydantic's `str(tool.function)` in the error message is approximated as `name='…' arguments={…}`.
- The text of Python exception messages (`KeyError('x')`, `list index out of range`) is modelled by `Failure` constructors, not by their exact strings.
- Catalog names are unique only when server names contain no `/` (`OllamaClient.CatalogNamesDistinct`). The source does not check this.
- The HTTP front end, the tool servers, the database scripts and the command-line argument check of the example are outside this core.
- KeyboardInterrupt (which `except Exception` does not catch) is not modelled.

## Findings

| source | as written | input that shows it | evidently intended | confidence | as-written member | corrected member |
|---|---|---|---|---|---|---|
| MCP/ollama-mcp-client/examples/ollama_example.py:19-40 | `input()` sits inside the `try`, so the EOFError raised at end of input is caught by `except Exception`, logged, and the loop asks again | standard input closed (an empty file or a pipe that has ended): every later iteration logs one more EOFError and the loop never exits | the end of input ends the session | not executed | OllamaExample.EndOfInputNeverExits | OllamaExample.RunCli |
