/** The four tool handlers both servers register, their argument validation,
    the SQL command `create_table` composes, and the dispatch of one call to
    a registered handler. The handler bodies are identical, in every decision
    modelled here, in the HTTP server (main.go) and the stdio server
    (server/stdio.go); they differ only in where they log. */
module Tools {
  import opened Wrappers
  import Mcp

  /** The program and argument vector handed to `exec.Command`. */
  datatype Command = Command(program: string, argv: seq<string>)

  /** What `cmd.CombinedOutput()` reports: the combined output, and the error
      when the process could not be run or exited non-zero. */
  datatype ExecOutcome = Exited(output: string) | ExecFailed(err: string, output: string)

  /** How far a Docker image pull got: creating the Docker client, asking the
      daemon for the image, or copying the progress stream. */
  datatype PullOutcome =
    | Pulled
    | ClientFailed(err: string)
    | PullFailed(err: string)
    | StreamFailed(err: string)

  /** The outside world a handler acts on: the Docker daemon and the local
      processes (`kubectl`, `git`, `psql`). */
  datatype World = World(pull: string -> PullOutcome, exec: Command -> ExecOutcome)

  /** `args[key].(string)`: the argument when present and a JSON string. */
  function ArgString(args: Mcp.Args, key: string): Option<string>
  {
    if key in args && args[key].JString? then Some(args[key].s) else None
  }

  /** The error a handler returns for a missing or non-string argument. */
  function MissingParam(key: string): string
  {
    "invalid or missing " + key + " parameter"
  }

  /** Checks the string arguments `keys` in order; the first one missing (or
      not a string) is the error reported, otherwise their values in order. */
  function RequireStrings(args: Mcp.Args, keys: seq<string>): (r: Result<seq<string>, string>)
    ensures r.Success? ==>
      && |r.value| == |keys|
      && forall i :: 0 <= i < |keys| ==> ArgString(args, keys[i]) == Some(r.value[i])
    ensures r.Failure? ==>
      exists i :: 0 <= i < |keys| && ArgString(args, keys[i]).None? && r.error == MissingParam(keys[i]) &&
        forall j :: 0 <= j < i ==> ArgString(args, keys[j]).Some?
  {
    if keys == [] then Success([])
    else
      match ArgString(args, keys[0])
      case None => Failure(MissingParam(keys[0]))
      case Some(v) =>
        match RequireStrings(args, keys[1..])
        case Failure(e) =>
          ghost var i :| 0 <= i < |keys[1..]| && ArgString(args, keys[1..][i]).None? && e == MissingParam(keys[1..][i]) &&
            forall j :: 0 <= j < i ==> ArgString(args, keys[1..][j]).Some?;
          assert ArgString(args, keys[i + 1]).None? && forall j :: 0 <= j < i + 1 ==> ArgString(args, keys[j]).Some?;
          Failure(e)
        case Success(vs) => Success([v] + vs)
  }

  /** The validation order decides the error: when every key before `keys[i]`
      is present and `keys[i]` is not, the error names `keys[i]`, whatever
      the later keys hold. */
  lemma RequireStringsFirstMissing(args: Mcp.Args, keys: seq<string>, i: nat)
    requires i < |keys| && ArgString(args, keys[i]).None?
    requires forall j :: 0 <= j < i ==> ArgString(args, keys[j]).Some?
    ensures RequireStrings(args, keys) == Failure(MissingParam(keys[i]))
  {
  }

  /** Validation looks at nothing but the string values of `keys`. */
  lemma {:induction false} RequireStringsReadsOnlyKeys(a1: Mcp.Args, a2: Mcp.Args, keys: seq<string>)
    requires forall i :: 0 <= i < |keys| ==> ArgString(a1, keys[i]) == ArgString(a2, keys[i])
    ensures RequireStrings(a1, keys) == RequireStrings(a2, keys)
  {
    if keys != [] {
      assert ArgString(a1, keys[0]) == ArgString(a2, keys[0]);
      RequireStringsReadsOnlyKeys(a1, a2, keys[1..]);
    }
  }

  /** The SQL `create_table` hands to `psql -c`. */
  function CreateTableSql(tableName: string, headers: string, values: string): string
  {
    "CREATE TABLE " + tableName + " (" + headers + "); INSERT INTO " + tableName + " VALUES (" + values + ");"
  }

  /** The three arguments stand verbatim at fixed offsets, the table name
      twice, between fixed fragments of SQL. */
  lemma CreateTableSqlLayout(t: string, h: string, v: string)
    ensures var sql := CreateTableSql(t, h, v);
      var p1 := 13 + |t|;
      var p2 := p1 + 2 + |h|;
      var p3 := p2 + 15 + |t|;
      var p4 := p3 + 9 + |v|;
      && |sql| == p4 + 2
      && sql[..13] == "CREATE TABLE " && sql[13..p1] == t
      && sql[p1..p1 + 2] == " (" && sql[p1 + 2..p2] == h
      && sql[p2..p2 + 15] == "); INSERT INTO " && sql[p2 + 15..p3] == t
      && sql[p3..p3 + 9] == " VALUES (" && sql[p3 + 9..p4] == v
      && sql[p4..] == ");"
  {
  }

  const KubectlGetPods: Command := Command("kubectl", ["get", "pods"])

  function GitInitCommand(directory: string): Command
  {
    Command("git", ["init", directory])
  }

  function PsqlCommand(sql: string): Command
  {
    Command("psql", ["-d", "postgres", "-c", sql])
  }

  /** The `pull_image` handler. */
  function PullImage(args: Mcp.Args, w: World): (r: Result<Mcp.CallToolResult, string>)
    ensures ArgString(args, "image").None? ==> r == Failure(MissingParam("image"))
    ensures ArgString(args, "image").Some? ==>
      var image := ArgString(args, "image").value;
      && (r.Success? <==> w.pull(image).Pulled?)
      && (r.Success? ==> r.value == Mcp.NewToolResultText("Image '" + image + "' pulled successfully"))
      && (w.pull(image).ClientFailed? ==> r == Failure("failed to create Docker client: " + w.pull(image).err))
      && (w.pull(image).PullFailed? ==> r == Failure("failed to pull image: " + w.pull(image).err))
      && (w.pull(image).StreamFailed? ==> r == Failure("error reading Docker pull response: " + w.pull(image).err))
  {
    match RequireStrings(args, ["image"])
    case Failure(e) => Failure(e)
    case Success(vs) =>
      var image := vs[0];
      match w.pull(image)
      case ClientFailed(e) => Failure("failed to create Docker client: " + e)
      case PullFailed(e) => Failure("failed to pull image: " + e)
      case StreamFailed(e) => Failure("error reading Docker pull response: " + e)
      case Pulled => Success(Mcp.NewToolResultText("Image '" + image + "' pulled successfully"))
  }

  /** A process's combined output as a text result, or the handler's error:
      `prefix`, then the process error and its output. */
  function ExecResult(prefix: string, outcome: ExecOutcome): Result<Mcp.CallToolResult, string>
  {
    match outcome
    case Exited(output) => Success(Mcp.NewToolResultText(output))
    case ExecFailed(e, output) => Failure(prefix + e + ", output: " + output)
  }

  /** The `get_pods` handler: the arguments are not read. */
  function GetPods(args: Mcp.Args, w: World): (r: Result<Mcp.CallToolResult, string>)
    ensures w.exec(KubectlGetPods).Exited? ==> r == Success(Mcp.NewToolResultText(w.exec(KubectlGetPods).output))
    ensures w.exec(KubectlGetPods).ExecFailed? ==>
      r == Failure("failed to get pods: " + w.exec(KubectlGetPods).err + ", output: " + w.exec(KubectlGetPods).output)
  {
    ExecResult("failed to get pods: ", w.exec(KubectlGetPods))
  }

  /** The `git_init` handler. */
  function GitInit(args: Mcp.Args, w: World): (r: Result<Mcp.CallToolResult, string>)
    ensures ArgString(args, "directory").None? ==> r == Failure(MissingParam("directory"))
    ensures ArgString(args, "directory").Some? ==>
      var run := w.exec(GitInitCommand(ArgString(args, "directory").value));
      && (r.Success? <==> run.Exited?)
      && (run.Exited? ==> r.value == Mcp.NewToolResultText(run.output))
      && (run.ExecFailed? ==> r.error == "failed to initialize git repository: " + run.err + ", output: " + run.output)
  {
    match RequireStrings(args, ["directory"])
    case Failure(e) => Failure(e)
    case Success(vs) => ExecResult("failed to initialize git repository: ", w.exec(GitInitCommand(vs[0])))
  }

  const CreateTableKeys: seq<string> := ["table_name", "headers", "values"]

  /** The `create_table` handler. */
  function CreateTable(args: Mcp.Args, w: World): (r: Result<Mcp.CallToolResult, string>)
    ensures ArgString(args, "table_name").Some? && ArgString(args, "headers").Some? && ArgString(args, "values").Some? ==>
      var t, h, v := ArgString(args, "table_name").value, ArgString(args, "headers").value, ArgString(args, "values").value;
      var run := w.exec(PsqlCommand(CreateTableSql(t, h, v)));
      && (r.Success? <==> run.Exited?)
      && (run.Exited? ==> r.value == Mcp.NewToolResultText(run.output))
      && (run.ExecFailed? ==> r.error == "failed to create table: " + run.err + ", output: " + run.output)
  {
    match RequireStrings(args, CreateTableKeys)
    case Failure(e) => Failure(e)
    case Success(vs) => ExecResult("failed to create table: ", w.exec(PsqlCommand(CreateTableSql(vs[0], vs[1], vs[2]))))
  }

  /** `create_table` checks `table_name`, then `headers`, then `values`: the
      first one missing or not a string is the one reported. */
  lemma CreateTableValidationOrder(args: Mcp.Args, w: World)
    ensures ArgString(args, "table_name").None? ==>
      CreateTable(args, w) == Failure("invalid or missing table_name parameter")
    ensures ArgString(args, "table_name").Some? && ArgString(args, "headers").None? ==>
      CreateTable(args, w) == Failure("invalid or missing headers parameter")
    ensures ArgString(args, "table_name").Some? && ArgString(args, "headers").Some? && ArgString(args, "values").None? ==>
      CreateTable(args, w) == Failure("invalid or missing values parameter")
  {
    var keys := CreateTableKeys;
    assert keys[0] == "table_name" && keys[1] == "headers" && keys[2] == "values";
    assert MissingParam("table_name") == "invalid or missing table_name parameter";
    assert MissingParam("headers") == "invalid or missing headers parameter";
    assert MissingParam("values") == "invalid or missing values parameter";
    if ArgString(args, keys[0]).None? {
      RequireStringsFirstMissing(args, keys, 0);
    } else if ArgString(args, keys[1]).None? {
      RequireStringsFirstMissing(args, keys, 1);
    } else if ArgString(args, keys[2]).None? {
      RequireStringsFirstMissing(args, keys, 2);
    }
  }

  /** A registered handler; each names one of the four handlers above. */
  datatype Handler = PullImageHandler | GetPodsHandler | GitInitHandler | CreateTableHandler

  /** The string arguments a handler checks, in the order it checks them. */
  function RequiredKeys(h: Handler): seq<string>
  {
    match h
    case PullImageHandler => ["image"]
    case GetPodsHandler => []
    case GitInitHandler => ["directory"]
    case CreateTableHandler => CreateTableKeys
  }

  /** Runs a handler on a request's arguments. */
  function Invoke(h: Handler, args: Mcp.Args, w: World): Result<Mcp.CallToolResult, string>
  {
    match h
    case PullImageHandler => PullImage(args, w)
    case GetPodsHandler => GetPods(args, w)
    case GitInitHandler => GitInit(args, w)
    case CreateTableHandler => CreateTable(args, w)
  }

  /** A handler's outcome depends on the arguments only through the string
      values of the keys it checks; `get_pods` ignores its arguments. */
  lemma InvokeReadsOnlyRequiredKeys(h: Handler, a1: Mcp.Args, a2: Mcp.Args, w: World)
    requires forall i :: 0 <= i < |RequiredKeys(h)| ==> ArgString(a1, RequiredKeys(h)[i]) == ArgString(a2, RequiredKeys(h)[i])
    ensures Invoke(h, a1, w) == Invoke(h, a2, w)
  {
    RequireStringsReadsOnlyKeys(a1, a2, RequiredKeys(h));
  }

  /** Every handler reports the first of its keys that is missing or not a
      string, before it touches the outside world. */
  lemma InvokeFirstMissing(h: Handler, args: Mcp.Args, w: World, i: nat)
    requires i < |RequiredKeys(h)| && ArgString(args, RequiredKeys(h)[i]).None?
    requires forall j :: 0 <= j < i ==> ArgString(args, RequiredKeys(h)[j]).Some?
    ensures Invoke(h, args, w) == Failure(MissingParam(RequiredKeys(h)[i]))
  {
  }

  /** A string parameter declared with `mcp.WithString`, and whether the
      declaration marks it `mcp.Required()`. */
  datatype ParamSpec = ParamSpec(name: string, required: bool)

  /** A tool declaration passed to `mcp.NewTool`: its name, description and
      string parameters. */
  datatype ToolDecl = ToolDecl(name: string, description: string, params: seq<ParamSpec>)

  /** What the declared input schema admits: every required parameter is
      present, and every declared parameter that is present is a string. */
  predicate SatisfiesSchema(args: Mcp.Args, decl: ToolDecl)
  {
    forall i :: 0 <= i < |decl.params| ==>
      && (decl.params[i].required ==> decl.params[i].name in args)
      && (decl.params[i].name in args ==> args[decl.params[i].name].JString?)
  }

  /** The three ends of one dispatched call, in the order they are checked. */
  datatype Outcome = NotFound(name: string) | ToolFailed(err: string) | Succeeded(result: Mcp.CallToolResult)

  /** Looks `name` up among the registered handlers and runs the one found. */
  function Dispatch(handlers: map<string, Handler>, name: string, args: Mcp.Args, w: World): (o: Outcome)
    ensures o.NotFound? <==> name !in handlers
    ensures o.NotFound? ==> o.name == name
    ensures name in handlers ==>
      && (o.ToolFailed? <==> Invoke(handlers[name], args, w).Failure?)
      && (o.ToolFailed? ==> o.err == Invoke(handlers[name], args, w).error)
      && (o.Succeeded? ==> o.result == Invoke(handlers[name], args, w).value)
  {
    if name !in handlers then NotFound(name)
    else
      match Invoke(handlers[name], args, w)
      case Failure(e) => ToolFailed(e)
      case Success(r) => Succeeded(r)
  }
}
