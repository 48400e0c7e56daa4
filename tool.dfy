/** A tool an agent can call (stateful_agents/tools/tool.py): a name, a description, a
    parameter schema, the list of required parameter names and an optional handler. The
    handler is a tagged variant: the three built-in core-memory operations, each bound to
    one core memory, or an opaque custom function of the keyword arguments. */
module Tools {
  import opened Seqs
  import opened Core

  /** Keyword arguments of a call, by name. */
  type Args = map<string, string>

  /** The schema of one parameter, e.g. {"type": "string", "description": "..."}. */
  type ParamSpec = map<string, string>

  /** What a handler returns: Python's None, or a text. */
  datatype Value = NoValue | Text(text: string)

  datatype ToolError =
    | NoImplementation(tool: string)   // the tool has no handler
    | MissingParameter(param: string)  // a required parameter is absent
    | BadArguments(tool: string)       // the built-in handler does not accept these keywords
    | NotFound(tool: string)           // no tool of that name is registered

  datatype Handler =
    | CoreAdd(core: CoreMemory)
    | CoreGet(core: CoreMemory)
    | CoreDelete(core: CoreMemory)
    | Custom(run: Args -> Value)

  datatype Tool = Tool(
    name: string,
    description: string,
    parameters: map<string, ParamSpec>,
    handler: Option<Handler>,
    requiredParams: seq<string>)

  /** What `get_schema` returns. */
  datatype Schema = Schema(
    name: string,
    description: string,
    parameters: map<string, ParamSpec>,
    required: seq<string>)

  /** The first name of `required` that `args` lacks, in list order. */
  function FirstMissing(required: seq<string>, args: Args): (r: Option<string>)
    ensures r.None? <==> forall i :: 0 <= i < |required| ==> required[i] in args
    ensures r.Some? ==> exists k :: 0 <= k < |required| && required[k] == r.value && r.value !in args &&
                                    forall j :: 0 <= j < k ==> required[j] in args
  {
    if required == [] then None
    else if required[0] !in args then Some(required[0])
    else
      var rest := FirstMissing(required[1..], args);
      assert rest.Some? ==> exists k :: 0 <= k < |required| && required[k] == rest.value &&
                                        forall j :: 0 <= j < k ==> required[j] in args
        by {
          if rest.Some? {
            var k :| 0 <= k < |required[1..]| && required[1..][k] == rest.value &&
                     forall j :: 0 <= j < k ==> required[1..][j] in args;
            assert required[k + 1] == rest.value;
          }
        }
      rest
  }

  /** The checks `execute` makes before calling the handler, in their order: a handler
      must exist, then every required parameter must be present. */
  function Precheck(t: Tool, args: Args): (r: Option<ToolError>)
    ensures t.handler.None? ==> r == Some(NoImplementation(t.name))
    ensures t.handler.Some? ==> (r.None? <==> forall p :: p in t.requiredParams ==> p in args)
    ensures t.handler.Some? && r.Some? ==>
              r.value.MissingParameter? && r.value.param in t.requiredParams && r.value.param !in args
  {
    if t.handler.None? then Some(NoImplementation(t.name))
    else match FirstMissing(t.requiredParams, args)
      case None => None
      case Some(p) => Some(MissingParameter(p))
  }

  function GetSchema(t: Tool): (s: Schema)
    ensures s.name == t.name && s.description == t.description
    ensures s.parameters == t.parameters && s.required == t.requiredParams
  {
    Schema(t.name, t.description, t.parameters, t.requiredParams)
  }

  /** The objects a call of the handler may change: the core memory of the add and delete
      handlers, a subset of what `ReadFrame` lets it read. */
  function Frame(h: Option<Handler>): set<object>
  {
    match h
    case Some(CoreAdd(core)) => {core}
    case Some(CoreDelete(core)) => {core}
    case _ => {}
  }

  /** The objects a call of the handler may read: the core memory a built-in handler is
      bound to, if any. */
  function ReadFrame(h: Handler): set<object>
  {
    if h.Custom? then {} else {h.core}
  }

  /** What running the handler `h` of the tool `name` on `args` did, from the state before
      the call to the state after it, returning `r`. The built-in handlers take exactly
      their keyword parameters (`key, value` to add; `key` to get or delete) and any other
      set of keywords is refused, as a Python call of the handler would be; they return
      None, except get, which returns the stored block if there is one. */
  twostate predicate Ran(name: string, h: Handler, args: Args, r: Result)
    reads ReadFrame(h)
  {
    match h
    case CoreAdd(core) =>
      if args.Keys == {"key", "value"} then
        && r == Ok(NoValue)
        && core.maxBlockSize == old(core.maxBlockSize)
        && core.blocks == old(core.blocks)[args["key"] := Truncate(args["value"], core.maxBlockSize)]
      else r == Err(BadArguments(name)) && unchanged(core)
    case CoreGet(core) =>
      && unchanged(core)
      && if args.Keys == {"key"} then
           r == Ok(if args["key"] in core.blocks then Text(core.blocks[args["key"]]) else NoValue)
         else r == Err(BadArguments(name))
    case CoreDelete(core) =>
      if args.Keys == {"key"} then
        && r == Ok(NoValue)
        && core.maxBlockSize == old(core.maxBlockSize)
        && core.blocks == old(core.blocks) - {args["key"]}
      else r == Err(BadArguments(name)) && unchanged(core)
    case Custom(run) => r == Ok(run(args))
  }

  method Invoke(name: string, h: Handler, args: Args) returns (r: Result)
    modifies Frame(Some(h))
    ensures Ran(name, h, args, r)
  {
    match h
    case CoreAdd(core) =>
      if args.Keys == {"key", "value"} {
        core.AddOrUpdate(args["key"], args["value"]);
        r := Ok(NoValue);
      } else {
        r := Err(BadArguments(name));
      }
    case CoreGet(core) =>
      if args.Keys == {"key"} {
        r := Ok(match core.Get(args["key"]) case None => NoValue case Some(v) => Text(v));
      } else {
        r := Err(BadArguments(name));
      }
    case CoreDelete(core) =>
      if args.Keys == {"key"} {
        core.Delete(args["key"]);
        r := Ok(NoValue);
      } else {
        r := Err(BadArguments(name));
      }
    case Custom(run) =>
      r := Ok(run(args));
  }

  datatype Result = Ok(value: Value) | Err(error: ToolError)

  /** `Tool.execute`: the checks of Precheck, then the handler's own result, unmodified.
      A failed check calls nothing and changes nothing. */
  method Execute(t: Tool, args: Args) returns (r: Result)
    modifies Frame(t.handler)
    ensures Precheck(t, args).Some? ==> r == Err(Precheck(t, args).value) && unchanged(Frame(t.handler))
    ensures Precheck(t, args).None? ==> Ran(t.name, t.handler.value, args, r)
  {
    var check := Precheck(t, args);
    if check.Some? {
      return Err(check.value);
    }
    r := Invoke(t.name, t.handler.value, args);
  }
}
