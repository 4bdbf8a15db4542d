/** The protocol values the servers and the client exchange (the parts of the
    mcp-go library's types that the modelled code reads or writes). */
module Mcp {

  /** A decoded JSON value, as Go's `interface{}` holds it after decoding. Numbers
      are kept as integers: no modelled decision looks at a number's value. */
  datatype JsonValue =
    | JString(s: string)
    | JNumber(n: int)
    | JBool(b: bool)
    | JNull
    | JArray(items: seq<JsonValue>)
    | JObject(fields: map<string, JsonValue>)

  /** `Params.Arguments` of a tool call: a JSON object, absent keys missing. */
  type Args = map<string, JsonValue>

  /** One block of a tool result.
      - TextContent: a `*mcp.TextContent` (the concrete text block type);
      - ImageContent: an image block (base64 data and a media type);
      - Decoded: a block that reached the client as a generic JSON value;
      - Unencodable: a value that `json.Marshal` refuses, with its error text. */
  datatype Content =
    | TextContent(text: string)
    | ImageContent(data: string, mimeType: string)
    | Decoded(json: JsonValue)
    | Unencodable(marshalError: string)

  /** `mcp.CallToolResult`. */
  datatype CallToolResult = CallToolResult(content: seq<Content>, isError: bool)

  /** `mcp.CallToolRequest`: the top-level `Method` and `Params.Name` /
      `Params.Arguments`. */
  datatype CallToolRequest = CallToolRequest(methodName: string, name: string, arguments: Args)

  /** `mcp.Tool` as listed by a server; the input schema is carried opaquely. */
  datatype Tool = Tool(name: string, description: string, inputSchema: JsonValue)

  /** `mcp.Implementation`, the name and version a peer reports. */
  datatype Implementation = Implementation(name: string, version: string)

  /** The parameters of `mcp.InitializeRequest` that the client sets. */
  datatype InitializeRequest = InitializeRequest(protocolVersion: string, clientInfo: Implementation)

  /** The parts of `mcp.InitializeResult` that a server reports back. */
  datatype InitializeResult = InitializeResult(protocolVersion: string, serverInfo: Implementation)

  /** mcp-go's `LATEST_PROTOCOL_VERSION`. */
  const LatestProtocolVersion: string := "2024-11-05"

  /** `mcp.NewToolResultText`: one text block, not flagged as an error. */
  function NewToolResultText(text: string): CallToolResult
  {
    CallToolResult([TextContent(text)], false)
  }
}
