/** The HTTP tool server (main.go): a package-level registry of the four
    tools, filled at start-up, and the `/rpc` handler that decodes one
    `CallToolRequest` per HTTP request and answers with a status code. */
module HttpServer {
  import opened Wrappers
  import Mcp
  import opened Tools
  import StdioServer

  /** The tool declarations this server makes: every parameter is marked
      required. */
  const PullImageTool: ToolDecl := ToolDecl("pull_image", "Pull an image from Docker Hub", [ParamSpec("image", true)])
  const GetPodsTool: ToolDecl := ToolDecl("get_pods", "Get Kubernetes Pods from the cluster", [])
  const GitInitTool: ToolDecl :=
    ToolDecl("git_init", "Initialize a Git repository in the provided project directory", [ParamSpec("directory", true)])
  const CreateTableTool: ToolDecl :=
    ToolDecl("create_table", "Create a database table in a local Postgres DB instance",
      [ParamSpec("table_name", true), ParamSpec("headers", true), ParamSpec("values", true)])

  /** Here `create_table` accepts exactly the arguments its declaration
      admits: the handler's checks and the schema agree. */
  lemma CreateTableMatchesSchema(args: Mcp.Args)
    ensures SatisfiesSchema(args, CreateTableTool) <==> RequireStrings(args, CreateTableKeys).Success?
  {
    var keys := CreateTableKeys;
    assert forall i :: 0 <= i < 3 ==> CreateTableTool.params[i] == ParamSpec(keys[i], true);
    if SatisfiesSchema(args, CreateTableTool) {
      assert forall i :: 0 <= i < 3 ==> ArgString(args, keys[i]).Some? by {
        forall i | 0 <= i < 3 ensures ArgString(args, keys[i]).Some? {
          assert CreateTableTool.params[i].name == keys[i];
        }
      }
    } else {
      var i :| 0 <= i < 3 && (CreateTableTool.params[i].name !in args || !args[CreateTableTool.params[i].name].JString?);
      assert ArgString(args, keys[i]).None?;
    }
  }

  /** What the handler writes back. */
  datatype HttpResponse = HttpResponse(status: int, contentType: string, body: string)

  const StatusOK: int := 200
  const StatusBadRequest: int := 400
  const StatusInternalServerError: int := 500

  /** `http.Error`: a plain-text body holding the message and a newline. */
  function HttpError(message: string, status: int): HttpResponse
  {
    HttpResponse(status, "text/plain; charset=utf-8", message + "\n")
  }

  /** The request as the handler receives it: a body that could not be
      read, or a body with the outcome of decoding it as a
      `CallToolRequest` (the decoder's error text on failure). */
  datatype RpcRequest = Unreadable(err: string) | Body(decoded: Result<Mcp.CallToolRequest, string>)

  /** The process-wide registry and the `/rpc` handler that reads it. */
  class RpcServer {
    var toolHandlers: map<string, Handler>

    constructor ()
      ensures toolHandlers == map[]
    {
      toolHandlers := map[];
    }

    /** `toolHandlers[name] = handler`. */
    method Register(name: string, h: Handler)
      modifies this
      ensures toolHandlers == old(toolHandlers)[name := h]
    {
      toolHandlers := toolHandlers[name := h];
    }

    /** The four registrations made before serving. */
    method RegisterTools()
      modifies this
      ensures toolHandlers.Keys == old(toolHandlers).Keys + {"pull_image", "get_pods", "git_init", "create_table"}
      ensures toolHandlers["pull_image"] == PullImageHandler && toolHandlers["get_pods"] == GetPodsHandler
      ensures toolHandlers["git_init"] == GitInitHandler && toolHandlers["create_table"] == CreateTableHandler
      ensures forall name :: name in old(toolHandlers) && name !in {"pull_image", "get_pods", "git_init", "create_table"} ==>
        name in toolHandlers && toolHandlers[name] == old(toolHandlers)[name]
    {
      Register(PullImageTool.name, PullImageHandler);
      Register(GetPodsTool.name, GetPodsHandler);
      Register(GitInitTool.name, GitInitHandler);
      Register(CreateTableTool.name, CreateTableHandler);
    }

    /** The `/rpc` handler. Its checks run in a fixed order, each failure
        ending the request: body read (400), decoding (400), unknown tool
        (400), handler error (500), encoding the result (500); otherwise the
        encoded result as `application/json`. The tool is looked up by
        `Params.Name` alone. */
    method HandleRpc(request: RpcRequest, w: World, marshal: Mcp.CallToolResult -> Result<string, string>)
      returns (response: HttpResponse)
      ensures request.Unreadable? ==>
        response == HttpError("failed to read request: " + request.err, StatusBadRequest)
      ensures request.Body? && request.decoded.Failure? ==>
        response == HttpError("failed to decode request: " + request.decoded.error, StatusBadRequest)
      ensures request.Body? && request.decoded.Success? ==>
        var req := request.decoded.value;
        && (req.name !in toolHandlers ==>
              response == HttpError("unknown tool: " + req.name, StatusBadRequest))
        && (req.name in toolHandlers && Invoke(toolHandlers[req.name], req.arguments, w).Failure? ==>
              response == HttpError("tool error: " + Invoke(toolHandlers[req.name], req.arguments, w).error, StatusInternalServerError))
        && (req.name in toolHandlers && Invoke(toolHandlers[req.name], req.arguments, w).Success? ==>
              var encoded := marshal(Invoke(toolHandlers[req.name], req.arguments, w).value);
              && (encoded.Failure? ==>
                    response == HttpError("failed to encode response: " + encoded.error, StatusInternalServerError))
              && (encoded.Success? ==>
                    response == HttpResponse(StatusOK, "application/json", encoded.value)))
      ensures response.status == StatusOK <==>
        request.Body? && request.decoded.Success? && request.decoded.value.name in toolHandlers
        && Dispatch(toolHandlers, request.decoded.value.name, request.decoded.value.arguments, w).Succeeded?
        && marshal(Dispatch(toolHandlers, request.decoded.value.name, request.decoded.value.arguments, w).result).Success?
    {
      if request.Unreadable? {
        return HttpError("failed to read request: " + request.err, StatusBadRequest);
      }
      if request.decoded.Failure? {
        return HttpError("failed to decode request: " + request.decoded.error, StatusBadRequest);
      }
      var req := request.decoded.value;
      var toolName := req.name;
      match Dispatch(toolHandlers, toolName, req.arguments, w) {
        case NotFound(_) =>
          return HttpError("unknown tool: " + toolName, StatusBadRequest);
        case ToolFailed(e) =>
          return HttpError("tool error: " + e, StatusInternalServerError);
        case Succeeded(result) =>
          var encoded := marshal(result);
          if encoded.Failure? {
            return HttpError("failed to encode response: " + encoded.error, StatusInternalServerError);
          }
          return HttpResponse(StatusOK, "application/json", encoded.value);
      }
    }
  }

  /** The two servers differ on an empty `Params.Name`: the stdio server
      dispatches on the top-level `Method`, `/rpc` looks up the empty name. */
  lemma NoMethodFallbackOverHttp(toolHandlers: map<string, Handler>, req: Mcp.CallToolRequest, w: World)
    requires req.name == "" && req.methodName in toolHandlers && "" !in toolHandlers
    ensures Dispatch(toolHandlers, req.name, req.arguments, w) == NotFound("")
    ensures StdioServer.LookupName(req) == req.methodName
    ensures !Dispatch(toolHandlers, StdioServer.LookupName(req), req.arguments, w).NotFound?
  {
  }

  /** Setting the server up leaves exactly the four tools registered. */
  method Setup() returns (server: RpcServer)
    ensures fresh(server)
    ensures server.toolHandlers.Keys == {"pull_image", "get_pods", "git_init", "create_table"}
    ensures server.toolHandlers["pull_image"] == PullImageHandler && server.toolHandlers["get_pods"] == GetPodsHandler
    ensures server.toolHandlers["git_init"] == GitInitHandler && server.toolHandlers["create_table"] == CreateTableHandler
  {
    server := new RpcServer();
    server.RegisterTools();
  }
}
