/** The stdio tool server (server/stdio.go): a local registry of the four
    tools and a loop that answers one JSON request per line of standard
    input with one JSON result on standard output. */
module StdioServer {
  import opened Wrappers
  import Mcp
  import opened Tools

  /** The tool declarations this server makes. Only `headers` of
      `create_table` is marked required, and no parameter of `pull_image`. */
  const PullImageTool: ToolDecl := ToolDecl("pull_image", "Pull an image from Docker Hub", [ParamSpec("image", false)])
  const GetPodsTool: ToolDecl := ToolDecl("get_pods", "Get Kubernetes Pods from the cluster", [])
  const GitInitTool: ToolDecl :=
    ToolDecl("git_init", "Initialize a Git repository in the provided project directory", [ParamSpec("directory", false)])
  const CreateTableTool: ToolDecl :=
    ToolDecl("create_table", "Create a database table in a local Postgres DB instance",
      [ParamSpec("table_name", false), ParamSpec("headers", true), ParamSpec("values", false)])

  /** Fills the name-to-handler map by successive inserts. */
  method RegisterTools() returns (toolHandlers: map<string, Handler>)
    ensures toolHandlers.Keys == {PullImageTool.name, GetPodsTool.name, GitInitTool.name, CreateTableTool.name}
    ensures toolHandlers["pull_image"] == PullImageHandler && toolHandlers["get_pods"] == GetPodsHandler
    ensures toolHandlers["git_init"] == GitInitHandler && toolHandlers["create_table"] == CreateTableHandler
  {
    toolHandlers := map[];
    toolHandlers := toolHandlers["pull_image" := PullImageHandler];
    toolHandlers := toolHandlers["get_pods" := GetPodsHandler];
    toolHandlers := toolHandlers["git_init" := GitInitHandler];
    toolHandlers := toolHandlers["create_table" := CreateTableHandler];
  }

  /** `create_table` demands more than its declaration: arguments the schema
      admits (only `headers`, whatever its text) are still refused for the
      missing `table_name`. */
  lemma CreateTableStricterThanSchema(h: string, w: World)
    ensures var args := map["headers" := Mcp.JString(h)];
      && SatisfiesSchema(args, CreateTableTool)
      && Invoke(CreateTableHandler, args, w) == Failure("invalid or missing table_name parameter")
  {
    var args := map["headers" := Mcp.JString(h)];
    CreateTableValidationOrder(args, w);
  }

  /** The other half of "stricter": every argument map that `create_table`
      accepts satisfies the declaration. */
  lemma CreateTableAcceptedSatisfiesSchema(args: Mcp.Args)
    requires RequireStrings(args, CreateTableKeys).Success?
    ensures SatisfiesSchema(args, CreateTableTool)
  {
    var keys := CreateTableKeys;
    assert ArgString(args, keys[0]).Some?;
    assert ArgString(args, keys[1]).Some?;
    assert ArgString(args, keys[2]).Some?;
  }

  /** The name a request is dispatched under: `Params.Name`, or the
      top-level `Method` when `Params.Name` is empty. */
  function LookupName(req: Mcp.CallToolRequest): (name: string)
    ensures req.name != "" ==> name == req.name
    ensures req.name == "" ==> name == req.methodName
  {
    if req.name == "" && req.methodName != "" then req.methodName else req.name
  }

  /** Writing the looked-up name back into `Params.Name`, as the loop does,
      leaves the lookup unchanged. */
  lemma LookupNameStable(req: Mcp.CallToolRequest)
    ensures LookupName(req.(name := LookupName(req))) == LookupName(req)
  {
  }

  /** The result written for one decoded request. */
  function Respond(toolHandlers: map<string, Handler>, req: Mcp.CallToolRequest, w: World): Mcp.CallToolResult
  {
    match Dispatch(toolHandlers, LookupName(req), req.arguments, w)
    case NotFound(name) => Mcp.NewToolResultText("Method '" + name + "' not found")
    case ToolFailed(e) => Mcp.NewToolResultText("Error executing tool: " + e)
    case Succeeded(result) => result
  }

  /** An unknown name and a failing handler are both answered with a plain
      text result (not flagged as an error); a handler's success is written
      as the handler returned it. */
  lemma RespondOutcomes(toolHandlers: map<string, Handler>, req: Mcp.CallToolRequest, w: World)
    ensures var name := LookupName(req); var r := Respond(toolHandlers, req, w);
      && (name !in toolHandlers ==>
            r.content == [Mcp.TextContent("Method '" + name + "' not found")] && !r.isError)
      && (name in toolHandlers && Invoke(toolHandlers[name], req.arguments, w).Failure? ==>
            r.content == [Mcp.TextContent("Error executing tool: " + Invoke(toolHandlers[name], req.arguments, w).error)]
            && !r.isError)
      && (name in toolHandlers && Invoke(toolHandlers[name], req.arguments, w).Success? ==>
            r == Invoke(toolHandlers[name], req.arguments, w).value)
  {
  }

  /** One read from standard input: a line with the outcome of decoding it
      as a `CallToolRequest` (None when it is not one), a read error other
      than end of input, or end of input. */
  datatype ReadResult = Line(decoded: Option<Mcp.CallToolRequest>) | ReadError(err: string) | Eof

  /** The loop's skeleton for any way of answering a request: one answer
      per decoded line before end of input, the `n`-th of the run computed
      by `answer(req, n)`; `start` is the number of answers already given. */
  function Answers<R>(input: seq<ReadResult>, answer: (Mcp.CallToolRequest, nat) -> R, start: nat): seq<R>
  {
    if input == [] then []
    else
      match input[0]
      case Eof => []
      case ReadError(_) => Answers(input[1..], answer, start)
      case Line(None) => Answers(input[1..], answer, start)
      case Line(Some(req)) => [answer(req, start)] + Answers(input[1..], answer, start + 1)
  }

  /** The results the loop writes for `input`, in order. The world a
      handler acts on may differ from one call to the next (an earlier call
      may have created the table or the repository): the response numbered
      `n` from the start of the run is computed in `worlds(n)`. */
  function Transcript(toolHandlers: map<string, Handler>, input: seq<ReadResult>, worlds: nat -> World, start: nat)
    : seq<Mcp.CallToolResult>
  {
    Answers(input, (req, n) => Respond(toolHandlers, req, worlds(n)), start)
  }

  /** The requests that decode before the first end of input, in order. */
  function Requests(input: seq<ReadResult>): seq<Mcp.CallToolRequest>
  {
    if input == [] || input[0].Eof? then []
    else if input[0].Line? && input[0].decoded.Some? then [input[0].decoded.value] + Requests(input[1..])
    else Requests(input[1..])
  }

  /** The `k`-th answer is given to the `k`-th decoded request, and there is
      one answer per decoded request. */
  lemma {:induction false} AnswersAt<R>(input: seq<ReadResult>, answer: (Mcp.CallToolRequest, nat) -> R, start: nat, k: nat)
    requires k < |Requests(input)|
    ensures |Answers(input, answer, start)| == |Requests(input)|
    ensures Answers(input, answer, start)[k] == answer(Requests(input)[k], start + k)
  {
    if input[0].Line? && input[0].decoded.Some? {
      if k > 0 {
        AnswersAt(input[1..], answer, start + 1, k - 1);
      } else if |Requests(input)| > 1 {
        AnswersAt(input[1..], answer, start + 1, 0);
      } else {
        AnswersLength(input[1..], answer, start + 1);
      }
    } else {
      AnswersAt(input[1..], answer, start, k);
    }
  }

  lemma {:induction false} AnswersLength<R>(input: seq<ReadResult>, answer: (Mcp.CallToolRequest, nat) -> R, start: nat)
    ensures |Answers(input, answer, start)| == |Requests(input)|
  {
    if input != [] && !input[0].Eof? {
      AnswersLength(input[1..], answer, if input[0].Line? && input[0].decoded.Some? then start + 1 else start);
    }
  }

  /** Every decoded line before end of input is answered exactly once, in
      input order, in the world current at its turn; nothing else is
      answered. */
  lemma TranscriptAnswersEachRequest(
    toolHandlers: map<string, Handler>, input: seq<ReadResult>, worlds: nat -> World, start: nat)
    ensures |Transcript(toolHandlers, input, worlds, start)| == |Requests(input)|
    ensures forall k :: 0 <= k < |Requests(input)| ==>
      Transcript(toolHandlers, input, worlds, start)[k] == Respond(toolHandlers, Requests(input)[k], worlds(start + k))
  {
    var answer := (req, n) => Respond(toolHandlers, req, worlds(n));
    AnswersLength(input, answer, start);
    forall k | 0 <= k < |Requests(input)|
      ensures Transcript(toolHandlers, input, worlds, start)[k] == Respond(toolHandlers, Requests(input)[k], worlds(start + k))
    {
      AnswersAt(input, answer, start, k);
    }
  }

  /** End of input stops the loop: nothing after it is read or answered. */
  lemma {:induction false} AnswersStopAtEof<R>(
    before: seq<ReadResult>, after: seq<ReadResult>, answer: (Mcp.CallToolRequest, nat) -> R, start: nat)
    requires forall i :: 0 <= i < |before| ==> !before[i].Eof?
    ensures Answers(before + [Eof] + after, answer, start) == Answers(before, answer, start)
  {
    if before == [] {
      assert before + [Eof] + after == [Eof] + after;
    } else {
      assert (before + [Eof] + after)[1..] == before[1..] + [Eof] + after;
      var next := if before[0].Line? && before[0].decoded.Some? then start + 1 else start;
      AnswersStopAtEof(before[1..], after, answer, next);
    }
  }

  /** The transcript ends at the first end of input. */
  lemma TranscriptStopsAtEof(
    toolHandlers: map<string, Handler>, before: seq<ReadResult>, after: seq<ReadResult>, worlds: nat -> World, start: nat)
    requires forall i :: 0 <= i < |before| ==> !before[i].Eof?
    ensures Transcript(toolHandlers, before + [Eof] + after, worlds, start) == Transcript(toolHandlers, before, worlds, start)
  {
    AnswersStopAtEof(before, after, (req, n) => Respond(toolHandlers, req, worlds(n)), start);
  }

  /** The per-line loop: skips read errors and lines that do not decode,
      falls back to `Method` when `Params.Name` is empty, writes one result
      per decoded line and stops at end of input. */
  method ServeLines(toolHandlers: map<string, Handler>, input: seq<ReadResult>, worlds: nat -> World)
    returns (responses: seq<Mcp.CallToolResult>)
    ensures responses == Transcript(toolHandlers, input, worlds, 0)
  {
    responses := [];
    var i := 0;
    while i < |input|
      invariant 0 <= i <= |input|
      invariant responses + Transcript(toolHandlers, input[i..], worlds, |responses|) == Transcript(toolHandlers, input, worlds, 0)
    {
      if input[i].Eof? {
        break;
      }
      if input[i].Line? && input[i].decoded.Some? {
        var req := input[i].decoded.value;
        if req.name == "" && req.methodName != "" {
          req := req.(name := req.methodName);
        }
        var w := worlds(|responses|);
        var result;
        match Dispatch(toolHandlers, req.name, req.arguments, w) {
          case NotFound(name) =>
            result := Mcp.NewToolResultText("Method '" + name + "' not found");
          case ToolFailed(e) =>
            result := Mcp.NewToolResultText("Error executing tool: " + e);
          case Succeeded(r) =>
            result := r;
        }
        assert result == Respond(toolHandlers, input[i].decoded.value, w);
        responses := responses + [result];
      }
      assert input[i..][1..] == input[i + 1..];
      i := i + 1;
    }
  }
}
