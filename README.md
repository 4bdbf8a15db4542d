# Tool servers and tool client — a verified model

The repository holds two small tool servers that exchange mcp-go's tool-call
request and result types as plain JSON (without the JSON-RPC envelope of the
Model Context Protocol, MCP), and a single-endpoint tool client that speaks
MCP over SSE through the mcp-go library.

- The **HTTP server** (`main.go`) keeps a package-level map from tool name to
  handler. It registers `pull_image`, `get_pods`, `git_init` and
  `create_table`, and answers requests on `/rpc`. Each request there is one
  decoded `CallToolRequest`, and every failure ends the request with 400 or
  500 and a message of its own.
- The **stdio server** (`server/stdio.go`) registers the same four handlers in
  a local map. It then reads standard input line by line and writes one JSON
  result for each line that decodes. When `Params.Name` is empty it uses the
  top-level `Method` as the tool name.
- The **client** (`client/client.go`) converts listed tools into its own
  `Tool` type and extracts the text of a tool result. It wraps the failures
  of its modelled operations in its own error types; `Close` passes the
  library's error through.

What sits between the I/O is modelled here as Dafny and proved:

- `Tools` holds the four handlers, which are identical in both servers in
  every modelled decision. It
  also holds their argument validation, the SQL command of `create_table` and
  the dispatch of one call.
- `StdioServer` holds the registry and the line loop. The loop is a method
  that is proved against a transcript function.
- `HttpServer` holds the registry as a class field and the `/rpc` handler as
  a method on that class.
- `Client` holds the client operations.
- `Mcp` and `Wrappers` hold the protocol values, and `Option`/`Result`.

The outside world is a parameter:

- The Docker daemon and the `kubectl`, `git` and `psql` processes are the
  function fields of `Tools.World`. The stdio loop takes one world per
  response, so a handler's effect on a later call (a table that now exists,
  a repository already initialised) can change that call's outcome.
- The client's SSE session is the function fields of `Client.Session`.
- Standard input is a sequence of `StdioServer.ReadResult`. Each element is
  a decoded line, a line that failed to decode, a read error, or end of
  input.
- An HTTP request is a `HttpServer.RpcRequest`. It is either an unreadable
  body or a body with its decoding outcome. JSON encoding of a result is a
  function parameter.

Go's `bufio.Reader.ReadBytes` returns the bytes of an unterminated last line
together with `io.EOF`. The loop then stops without answering that line. In
the model, end of input carries no request, so the same holds.

## Model

| member | source | states |
|---|---|---|
| `Tools.RequireStrings` | server/stdio.go:120-131 | On success, one value per key, in order, and each is that key's string argument. On failure, the error is "invalid or missing <key> parameter" for some key that is missing or not a string, and every earlier key is present. |
| `Tools.RequireStringsFirstMissing` | server/stdio.go:119-131 | When all keys before `keys[i]` are present and `keys[i]` is not, the error names `keys[i]`, whatever the later keys hold. |
| `Tools.RequireStringsReadsOnlyKeys` | server/stdio.go:119-131 | Validation depends on the arguments only through the string values of the checked keys. |
| `Tools.CreateTableValidationOrder` | server/stdio.go:119-131 | `create_table` checks `table_name`, then `headers`, then `values`. The first one missing or not a string gives its exact message. The same code is at main.go:121-133. |
| `Tools.CreateTableSqlLayout` | server/stdio.go:133 | `CreateTableSql` builds the statement. The SQL is "CREATE TABLE t (h); INSERT INTO t VALUES (v);". t, h and v stand verbatim at the stated offsets, t appears twice, and the total length is fixed. Same at main.go:135. |
| `Tools.PullImage` | main.go:42-62 | A missing or non-string `image` gives "invalid or missing image parameter". Success happens exactly when the pull completes, with the text "Image '<image>' pulled successfully". Each failure stage has its own message. Same at server/stdio.go:41-62. |
| `Tools.GetPods` | main.go:69-77 | Runs `kubectl get pods`. Its output becomes the text result. A failure gives "failed to get pods: <err>, output: <out>". |
| `Tools.GitInit` | main.go:89-101 | A missing or non-string `directory` gives its error. Otherwise it runs `git init <directory>` and succeeds exactly when that command does. On success the output is the text; on failure the error and output are reported. |
| `Tools.CreateTable` | main.go:121-142 | With all three arguments present, it runs `psql -d postgres -c <CreateTableSql(t, h, v)>` and succeeds exactly when that command does. On success the output is the text; on failure the message starts "failed to create table: ". |
| `Tools.InvokeReadsOnlyRequiredKeys` | main.go:42-142 | `Invoke` runs the handler a registry entry names. A handler's outcome depends on the arguments only through its own keys. `get_pods` has no keys, so it ignores the arguments entirely. |
| `Tools.InvokeFirstMissing` | main.go:121-133 | Every handler reports the first of its keys that is missing, before any outside call. |
| `Tools.Dispatch` | main.go:164-177 | Exactly one outcome per call. NotFound happens exactly when the name is unregistered. ToolFailed happens exactly when the registered handler fails, and carries its error. Otherwise it is Succeeded, with the handler's result. |
| `StdioServer.RegisterTools` | server/stdio.go:32-142 | After setup the registry holds exactly `pull_image`, `get_pods`, `git_init` and `create_table`, each mapped to its own handler. |
| `StdioServer.CreateTableStricterThanSchema` | server/stdio.go:106-131 | The stdio declaration marks only `headers` as required. Arguments holding only `headers`, whatever its text, satisfy that schema but are still refused with "invalid or missing table_name parameter". |
| `StdioServer.CreateTableAcceptedSatisfiesSchema` | server/stdio.go:106-131 | Every argument map that `create_table` accepts satisfies its stdio declaration, so the handler is strictly stricter than the schema. |
| `StdioServer.LookupName` | server/stdio.go:176-180 | The dispatched name is `Params.Name` when it is non-empty, and the top-level `Method` when `Params.Name` is empty. |
| `StdioServer.LookupNameStable` | server/stdio.go:177-183 | Writing the fallback name back into `Params.Name` does not change the lookup. |
| `StdioServer.RespondOutcomes` | server/stdio.go:182-206 | `Respond` answers one decoded request. An unknown name gives one text block "Method '<name>' not found". A handler error gives "Error executing tool: <err>". Both are plain results, not flagged as errors. A success is written exactly as the handler returned it. |
| `StdioServer.AnswersAt` | server/stdio.go:149-199 | For any way of answering, the loop gives one answer per decoded request, and the `k`-th answer goes to the `k`-th decoded request as the `k`-th call of the run. |
| `StdioServer.TranscriptAnswersEachRequest` | server/stdio.go:149-209 | `Transcript` is the list of responses the loop writes. Every line that decodes before end of input gets exactly one response, in input order. Each response is computed in the world current at its turn, so an earlier call's effects can show in a later one. Lines that fail to decode and read errors get none. |
| `StdioServer.AnswersStopAtEof` | server/stdio.go:151-156 | End of input ends the loop, whatever the answers are. Nothing after it is answered. |
| `StdioServer.TranscriptStopsAtEof` | server/stdio.go:151-156 | End of input ends the loop. Nothing after it is answered. |
| `StdioServer.ServeLines` | server/stdio.go:149-209 | The loop, with the fallback that changes the request in place and the early `continue`/`break`, writes exactly the transcript. The `n`-th response is computed in the `n`-th world. |
| `HttpServer.RpcServer.constructor` | main.go:24 | The package-level registry starts empty. |
| `HttpServer.RpcServer.Register` | main.go:64 | One registration inserts or replaces a single entry and changes nothing else. |
| `HttpServer.RpcServer.RegisterTools` | main.go:35-144 | The four registrations add `pull_image`, `get_pods`, `git_init` and `create_table` with their handlers. Other entries are kept. |
| `HttpServer.Setup` | main.go:24-144 | After setup the global registry holds exactly the four tools, each mapped to its own handler. |
| `HttpServer.CreateTableMatchesSchema` | main.go:106-133 | Here every parameter is marked required. The arguments satisfy the declared schema exactly when the handler's validation passes. |
| `HttpServer.RpcServer.HandleRpc` | main.go:145-191 | Outcomes in this order: body read failure 400, decode failure 400, "unknown tool: <name>" 400, "tool error: <err>" 500, encode failure 500. Otherwise status 200 with the encoded body as `application/json`. The status is 200 exactly when every step succeeds. The lookup uses `Params.Name` only. |
| `HttpServer.NoMethodFallbackOverHttp` | main.go:163-170 | With an empty `Params.Name` and a registered `Method`, `/rpc` finds no tool named "". The stdio server dispatches the same request under `Method`. |
| `Client.ConvertMCPTools` | client/client.go:49-58 | One output per input, in the same order, with the same name and description. Empty input gives empty output. |
| `Client.NewClient` | client/client.go:69-80 | Creation succeeds exactly when the library's constructor does. The client then keeps the URL as given. A failure becomes a creation error "Failed to create client: <err>". |
| `Client.Start` | client/client.go:83-88 | Starting fails exactly when the library's start does, with a start error "Failed to start client: <err>". |
| `Client.Initialize` | client/client.go:91-103 | Sends the fixed handshake. Its result is passed through. A failure becomes an initialization error "Failed to initialize client: <err>". |
| `Client.InitializeSendsFixedIdentity` | client/client.go:92-97 | The handshake always carries mcp-go's latest protocol version and the client info "genval mcp client" / "1.0.0". It does not depend on the client's URL. |
| `Client.ListTools` | client/client.go:106-114 | A failure becomes "Failed to list tools: <err>", a tools error. On success, one converted tool per listed tool, in order. |
| `Client.ListToolsFull` | client/client.go:117-124 | The listing is passed through unchanged. A failure becomes the same tools error. |
| `Client.GetTextFromResult` | client/client.go:161-185 | No content gives "content is empty". A first block that is a text block gives its text. Otherwise the block's JSON object form decides. A string `"text"` field gives that text. A missing or non-string field gives "unexpected content format", and so does an image block or a JSON `null` (which decodes to an empty map). Marshal and unmarshal failures have their own messages. Every failure is an extraction error. |
| `Client.GetTextReadsFirstBlockOnly` | client/client.go:166-169 | Later blocks and the error flag never change the outcome. |
| `Client.FallbackAgreesWithTextContent` | client/client.go:171-183 | A text block that arrives in its generic JSON form gives the same text as the typed path. |
| `Client.ImageHasNoText` | client/client.go:181-184 | A first block that is an image fails with "unexpected content format". |
| `Client.CallTool` | client/client.go:133-154 | Sends method "tools/call" with the name and arguments unchanged. A transport failure becomes "Failed to call tool: <err>" and an extraction failure "Failed to extract text from result: <msg>", both tool-call errors. A success carries the extracted text and the type "text". |
| `Client.CallToolDependsOnlyOnThatRequest` | client/client.go:134-142 | Two sessions that answer that one request alike give the same call result. |

## Left out

- HTTP serving (`http.HandleFunc`, `ListenAndServe`), reading standard input, and the JSON encoder on standard output are I/O. Requests, lines and decode outcomes are abstract values. Stdio responses are the sequence of results handed to the encoder.
- The stdio loop's failure to encode a success result (server/stdio.go:206-208) only logs. An output stream that fails is not modelled.
- `http.Error` also sets an `X-Content-Type-Options: nosniff` header. Only the status, content type and body are modelled.
- Docker `ImagePull` and the `kubectl`, `git` and `psql` processes are foreign. Each is an outcome read from `Tools.World`. Where Docker pull progress is copied (standard error or standard output) is not modelled.
- The mcp-go server object that both servers build and pass to `AddTool` is never served, so it has no observable effect. The tool declarations are kept only as constants, for the schema comparison.
- The mcp-go SSE transport behind the client is foreign: what its constructor, `Start`, and the three requests give is a parameter. `Close` only passes the library's error through, so it has no row. The client's `main`, with its flag parsing, 30-second timeout, `log.Fatalf` exits and printing, is left out too.
- Debug and error logging in all three files is left out, as is the commented-out handler at the end of main.go.
- JSON numbers are integers in the model. No modelled decision reads a number.
- `Client.ConvertMCPTools`: Go returns a nil slice for empty input. The model returns the empty sequence, which is the same to every caller here.
- `Client.ListToolsFull`: the listing result is reduced to its tools; `NextCursor` and metadata are not modelled.
- `Mcp.LatestProtocolVersion` is mcp-go's `LATEST_PROTOCOL_VERSION` ("2024-11-05"). The library source is not part of this model.
