/** The single-endpoint tool client (client/client.go): converting listed
    tools, extracting the text of a tool result, and shaping the results and
    errors of `NewClient`, `Start`, `Initialize`, `ListTools` and
    `CallTool`. */
module Client {
  import opened Wrappers
  import Mcp

  /** The client's own simplified tool: a name and a description. */
  datatype Tool = Tool(name: string, description: string)

  /** The client's error types; each carries its message. */
  datatype ClientError =
    | CreationError(message: string)
    | StartError(message: string)
    | InitializationError(message: string)
    | GetToolsError(message: string)
    | ToolCallError(message: string)
    | ResultExtractionError(message: string)

  /** What a tool call gives the caller: the text and its type tag (the
      `Type` field of the Go struct). */
  datatype CallToolResult = CallToolResult(text: string, kind: string)

  /** The started SSE session to the server, as the answers it gives to the
      three requests the client sends (a failure carries the error text). */
  datatype Session = Session(
    initialize: Mcp.InitializeRequest -> Result<Mcp.InitializeResult, string>,
    listTools: Result<seq<Mcp.Tool>, string>,
    callTool: Mcp.CallToolRequest -> Result<Mcp.CallToolResult, string>)

  /** A client: its session and the URL it was created for; both are set
      once at creation and never updated. */
  datatype Client = Client(session: Session, baseURL: string)

  /** Creates a client for `baseURL`, used as given. `created` is what the
      library's SSE client constructor gives; its failure is reported as a
      creation error. */
  function NewClient(baseURL: string, created: Result<Session, string>): (r: Result<Client, ClientError>)
    ensures r.Success? <==> created.Success?
    ensures r.Success? ==> r.value.session == created.value && r.value.baseURL == baseURL
    ensures r.Failure? ==> r.error == CreationError("Failed to create client: " + created.error)
  {
    match created
    case Failure(e) => Failure(CreationError("Failed to create client: " + e))
    case Success(session) => Success(Client(session, baseURL))
  }

  /** Starts the client's SSE connection. `started` is the library's error,
      if any; a failure is reported as a start error. */
  function Start(started: Option<string>): (r: Option<ClientError>)
    ensures r.None? <==> started.None?
    ensures r.Some? ==> r.value == StartError("Failed to start client: " + started.value)
  {
    match started
    case None => None
    case Some(e) => Some(StartError("Failed to start client: " + e))
  }

  /** Converts listed tools into the client's own tools, one per input and
      in the same order, keeping name and description. */
  method ConvertMCPTools(mcpTools: seq<Mcp.Tool>) returns (tools: seq<Tool>)
    ensures |tools| == |mcpTools|
    ensures forall i :: 0 <= i < |tools| ==>
      tools[i].name == mcpTools[i].name && tools[i].description == mcpTools[i].description
  {
    tools := [];
    for k := 0 to |mcpTools|
      invariant |tools| == k
      invariant forall i :: 0 <= i < k ==>
        tools[i].name == mcpTools[i].name && tools[i].description == mcpTools[i].description
    {
      tools := tools + [Tool(mcpTools[k].name, mcpTools[k].description)];
    }
  }

  /** The initialize request the client always sends. */
  const InitRequest: Mcp.InitializeRequest :=
    Mcp.InitializeRequest(Mcp.LatestProtocolVersion, Mcp.Implementation("genval mcp client", "1.0.0"))

  /** Sends the handshake; a failure is reported as an initialization error. */
  function Initialize(c: Client): (r: Result<Mcp.InitializeResult, ClientError>)
    ensures c.session.initialize(InitRequest).Success? ==> r == Success(c.session.initialize(InitRequest).value)
    ensures c.session.initialize(InitRequest).Failure? ==>
      r == Failure(InitializationError("Failed to initialize client: " + c.session.initialize(InitRequest).error))
  {
    match c.session.initialize(InitRequest)
    case Failure(e) => Failure(InitializationError("Failed to initialize client: " + e))
    case Success(result) => Success(result)
  }

  /** The handshake announces the latest protocol version and the client's
      fixed name and version, whatever the client's URL. */
  lemma InitializeSendsFixedIdentity(c: Client)
    ensures InitRequest.protocolVersion == Mcp.LatestProtocolVersion
    ensures InitRequest.clientInfo.name == "genval mcp client" && InitRequest.clientInfo.version == "1.0.0"
    ensures Initialize(c) == Initialize(c.(baseURL := ""))
  {
  }

  /** Lists the server's tools in the client's simplified form. */
  method ListTools(c: Client) returns (r: Result<seq<Tool>, ClientError>)
    ensures c.session.listTools.Failure? ==>
      r == Failure(GetToolsError("Failed to list tools: " + c.session.listTools.error))
    ensures c.session.listTools.Success? ==>
      && r.Success? && |r.value| == |c.session.listTools.value|
      && forall i :: 0 <= i < |r.value| ==>
           r.value[i] == Tool(c.session.listTools.value[i].name, c.session.listTools.value[i].description)
  {
    match c.session.listTools {
      case Failure(e) =>
        r := Failure(GetToolsError("Failed to list tools: " + e));
      case Success(listed) =>
        var converted := ConvertMCPTools(listed);
        r := Success(converted);
    }
  }

  /** Lists the server's tools as the server describes them. */
  function ListToolsFull(c: Client): (r: Result<seq<Mcp.Tool>, ClientError>)
    ensures r.Failure? <==> c.session.listTools.Failure?
    ensures r.Failure? ==> r.error == GetToolsError("Failed to list tools: " + c.session.listTools.error)
    ensures r.Success? ==> r.value == c.session.listTools.value
  {
    match c.session.listTools
    case Failure(e) => Failure(GetToolsError("Failed to list tools: " + e))
    case Success(listed) => Success(listed)
  }

  /** The JSON object `json.Marshal` makes of a content block. */
  function MarshalContent(c: Mcp.Content): Result<Mcp.JsonValue, string>
  {
    match c
    case TextContent(t) => Success(Mcp.JObject(map["type" := Mcp.JString("text"), "text" := Mcp.JString(t)]))
    case ImageContent(d, m) =>
      Success(Mcp.JObject(map["type" := Mcp.JString("image"), "data" := Mcp.JString(d), "mimeType" := Mcp.JString(m)]))
    case Decoded(j) => Success(j)
    case Unencodable(e) => Failure(e)
  }

  /** Decoding JSON into a Go `map[string]interface{}`: an object gives its
      fields, `null` an empty (nil) map, anything else a type error. */
  function UnmarshalObject(j: Mcp.JsonValue): Result<map<string, Mcp.JsonValue>, string>
  {
    match j
    case JObject(fields) => Success(fields)
    case JNull => Success(map[])
    case JString(_) => Failure(CannotUnmarshal("string"))
    case JNumber(_) => Failure(CannotUnmarshal("number"))
    case JBool(_) => Failure(CannotUnmarshal("bool"))
    case JArray(_) => Failure(CannotUnmarshal("array"))
  }

  function CannotUnmarshal(kind: string): string
  {
    "json: cannot unmarshal " + kind + " into Go value of type map[string]interface {}"
  }

  /** The text of a tool result: taken from the first content block alone,
      directly when it is a text block, otherwise from the `"text"` string
      of its JSON object form. */
  function GetTextFromResult(result: Mcp.CallToolResult): (r: Result<string, ClientError>)
    ensures r.Failure? ==> r.error.ResultExtractionError?
    ensures result.content == [] ==> r == Failure(ResultExtractionError("content is empty"))
    ensures result.content != [] && result.content[0].TextContent? ==> r == Success(result.content[0].text)
    ensures result.content != [] && result.content[0].Decoded? && result.content[0].json.JObject? ==>
      var fields := result.content[0].json.fields;
      && (r.Success? <==> "text" in fields && fields["text"].JString?)
      && (r.Success? ==> r.value == fields["text"].s)
      && (r.Failure? ==> r.error.message == "unexpected content format")
    ensures result.content != [] && result.content[0] == Mcp.Decoded(Mcp.JNull) ==>
      r == Failure(ResultExtractionError("unexpected content format"))
    ensures result.content != [] && result.content[0].ImageContent? ==>
      r == Failure(ResultExtractionError("unexpected content format"))
    ensures result.content != [] && result.content[0].Unencodable? ==>
      r == Failure(ResultExtractionError("failed to marshal content: " + result.content[0].marshalError))
    ensures result.content != [] && result.content[0].Decoded? && UnmarshalObject(result.content[0].json).Failure? ==>
      r == Failure(ResultExtractionError("failed to unmarshal content: " + UnmarshalObject(result.content[0].json).error))
  {
    if result.content == [] then Failure(ResultExtractionError("content is empty"))
    else
      match result.content[0]
      case TextContent(t) => Success(t)
      case _ =>
        match MarshalContent(result.content[0])
        case Failure(e) => Failure(ResultExtractionError("failed to marshal content: " + e))
        case Success(json) =>
          match UnmarshalObject(json)
          case Failure(e) => Failure(ResultExtractionError("failed to unmarshal content: " + e))
          case Success(m) =>
            match TextField(m)
            case Some(text) => Success(text)
            case None => Failure(ResultExtractionError("unexpected content format"))
  }

  /** `m["text"].(string)`. */
  function TextField(m: map<string, Mcp.JsonValue>): Option<string>
  {
    if "text" in m && m["text"].JString? then Some(m["text"].s) else None
  }

  /** Only the first block is read: later blocks and the error flag change
      nothing. */
  lemma GetTextReadsFirstBlockOnly(first: Mcp.Content, rest1: seq<Mcp.Content>, rest2: seq<Mcp.Content>, e1: bool, e2: bool)
    ensures GetTextFromResult(Mcp.CallToolResult([first] + rest1, e1)) == GetTextFromResult(Mcp.CallToolResult([first] + rest2, e2))
  {
  }

  /** The fallback agrees with the typed path: a text block that arrives in
      its generic JSON form yields the same text. */
  lemma FallbackAgreesWithTextContent(t: string, rest: seq<Mcp.Content>, isError: bool)
    ensures var generic := Mcp.Decoded(MarshalContent(Mcp.TextContent(t)).value);
      GetTextFromResult(Mcp.CallToolResult([generic] + rest, isError))
        == GetTextFromResult(Mcp.CallToolResult([Mcp.TextContent(t)] + rest, isError))
        == Success(t)
  {
  }

  /** A first block that is an image has no text: extraction fails with
      "unexpected content format". */
  lemma ImageHasNoText(data: string, mimeType: string, rest: seq<Mcp.Content>, isError: bool)
    ensures GetTextFromResult(Mcp.CallToolResult([Mcp.ImageContent(data, mimeType)] + rest, isError))
      == Failure(ResultExtractionError("unexpected content format"))
  {
  }

  /** The request `CallTool` sends: method "tools/call", the tool name and
      the arguments as given. */
  function ToolCallRequest(functionName: string, arguments: Mcp.Args): Mcp.CallToolRequest
  {
    Mcp.CallToolRequest("tools/call", functionName, arguments)
  }

  /** Calls a tool. Both a failed call and a result without text become a
      tool-call error; a success is always tagged "text". */
  function CallTool(c: Client, functionName: string, arguments: Mcp.Args): (r: Result<CallToolResult, ClientError>)
    ensures r.Failure? ==> r.error.ToolCallError?
    ensures r.Success? ==> r.value.kind == "text"
    ensures var reply := c.session.callTool(ToolCallRequest(functionName, arguments));
      && (reply.Failure? ==> r == Failure(ToolCallError("Failed to call tool: " + reply.error)))
      && (reply.Success? && GetTextFromResult(reply.value).Failure? ==>
            r == Failure(ToolCallError("Failed to extract text from result: " + GetTextFromResult(reply.value).error.message)))
      && (reply.Success? && GetTextFromResult(reply.value).Success? ==>
            r.Success? && r.value.text == GetTextFromResult(reply.value).value)
  {
    match c.session.callTool(ToolCallRequest(functionName, arguments))
    case Failure(e) => Failure(ToolCallError("Failed to call tool: " + e))
    case Success(mcpResult) =>
      match GetTextFromResult(mcpResult)
      case Failure(e) => Failure(ToolCallError("Failed to extract text from result: " + e.message))
      case Success(text) => Success(CallToolResult(text, "text"))
  }

  /** The request carries the name and arguments unchanged, so two sessions
      that answer that request alike give the same call result. */
  lemma CallToolDependsOnlyOnThatRequest(c1: Client, c2: Client, functionName: string, arguments: Mcp.Args)
    requires c1.session.callTool(Mcp.CallToolRequest("tools/call", functionName, arguments))
          == c2.session.callTool(Mcp.CallToolRequest("tools/call", functionName, arguments))
    ensures CallTool(c1, functionName, arguments) == CallTool(c2, functionName, arguments)
  {
  }
}
