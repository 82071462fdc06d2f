/**
 * The tool registry: the schemas advertised to the model, the name-to-tool
 * dispatch table, Python's keyword-argument binding for the two tools, the
 * SQL tool, and the tool-result content the loop stores in the transcript.
 */
module Tools {
  import opened Wrappers
  import opened Json
  import Vega

  /** The registered tools, one case per entry of the dispatch table. */
  datatype ToolName = ExecuteSql | GenerateVegaSpec

  /** What the embedded SQL engine does with a query: render the result table, or raise. */
  datatype SqlOutcome = Rendered(table: string) | Raised(message: string)

  /** The embedded analytical engine, as an opaque function of the query. */
  type SqlEngine = Value -> SqlOutcome

  /** Why dispatching one tool call raised. */
  datatype ToolError =
    | UnknownTool(name: string)                    // KeyError from the dispatch table
    | BadArguments(tool: ToolName, given: set<string>) // TypeError from binding keyword arguments

  // ---------------------------------------------------------------------------
  // Schemas advertised to the model

  /** The JSON-Schema type of one advertised property; `Never` is the literal schema `false`. */
  datatype PropertyType = StringType | Never

  /** The `parameters` object of a tool schema. `closed` is `"additionalProperties": False` at this level. */
  datatype ParameterSchema = ParameterSchema(properties: map<string, PropertyType>, required: set<string>, closed: bool)

  datatype ToolSchema = ToolSchema(name: string, parameters: ParameterSchema)

  /** Whether an argument object is valid under a parameter schema. */
  predicate Admits(p: ParameterSchema, args: map<string, Value>)
  {
    && p.required <= args.Keys
    && forall k | k in args ::
         if k in p.properties then p.properties[k] == StringType && args[k].Str?
         else !p.closed
  }

  /** The `execute_sql` schema as the source writes it: `additionalProperties` sits inside `properties`. */
  const ExecuteSqlSchemaAsWritten := ToolSchema("execute_sql",
    ParameterSchema(map["sql_query" := StringType, "additionalProperties" := Never], {"sql_query"}, false))

  /** The `execute_sql` schema with `additionalProperties` closing the parameter object, as intended. */
  const ExecuteSqlSchema := ToolSchema("execute_sql",
    ParameterSchema(map["sql_query" := StringType], {"sql_query"}, true))

  const GenerateVegaSpecSchema := ToolSchema("generate_vega_spec",
    ParameterSchema(
      map["question" := StringType, "data_url" := StringType, "mark_type" := StringType,
          "x_field" := StringType, "y_field" := StringType],
      {"question", "data_url"}, true))

  /** The `tools` list sent with every model call, as the source writes it. */
  const Advertised: seq<ToolSchema> := [ExecuteSqlSchemaAsWritten, GenerateVegaSpecSchema]

  /** The same list with the `execute_sql` schema corrected. */
  const AdvertisedCorrected: seq<ToolSchema> := [ExecuteSqlSchema, GenerateVegaSpecSchema]

  /** The dispatch table `tool_map`. */
  const ToolMap: map<string, ToolName> := map["execute_sql" := ExecuteSql, "generate_vega_spec" := GenerateVegaSpec]

  /** `tool_map[name]`: the tool registered under a name, or `None` where Python raises a KeyError. */
  function Lookup(name: string): (t: Option<ToolName>)
    ensures t.Some? <==> exists s | s in Advertised :: s.name == name
    ensures t == Some(ExecuteSql) <==> name == ExecuteSqlSchemaAsWritten.name
    ensures t == Some(GenerateVegaSpec) <==> name == GenerateVegaSpecSchema.name
  {
    if name in ToolMap then Some(ToolMap[name]) else None
  }

  /**
   * Every advertised name dispatches, to the tool that schema describes, and every dispatchable
   * name is advertised; the correction of the `execute_sql` schema changes no name.
   */
  lemma RegistryInSync()
    ensures forall s | s in Advertised :: s.name in ToolMap
    ensures forall n | n in ToolMap :: exists s | s in Advertised :: s.name == n
    ensures forall s | s in Advertised :: ToolMap[s.name] == ExecuteSql <==> s == ExecuteSqlSchemaAsWritten
    ensures forall k | 0 <= k < |Advertised| :: AdvertisedCorrected[k].name == Advertised[k].name
  {
  }

  // ---------------------------------------------------------------------------
  // Binding keyword arguments and running a tool

  /** The keyword parameters of each Python function. */
  function Parameters(t: ToolName): (names: set<string>)
  {
    match t
    case ExecuteSql => {"sql_query"}
    case GenerateVegaSpec => {"question", "data_url", "mark_type", "x_field", "y_field", "color_field"}
  }

  /** The parameters without a default value. */
  function RequiredParameters(t: ToolName): (names: set<string>)
  {
    match t
    case ExecuteSql => {"sql_query"}
    case GenerateVegaSpec => {"question", "data_url"}
  }

  /** `f(**args)` binds without a TypeError: no required parameter missing, no unexpected keyword. */
  predicate Binds(t: ToolName, args: map<string, Value>): (b: bool)
    ensures b ==> "result" !in args
    ensures t == ExecuteSql ==> (b <==> args.Keys == {"sql_query"})
    ensures t == GenerateVegaSpec && b ==> "question" in args && "data_url" in args
  {
    RequiredParameters(t) <= args.Keys <= Parameters(t)
  }

  /** The argument, or the parameter's default when the caller leaves it out. */
  function ArgOr(args: map<string, Value>, name: string, default: Value): (v: Value)
  {
    if name in args then args[name] else default
  }

  /** `execute_sql`: the rendered table, or the text of the exception the engine raised; it never raises itself. */
  function ExecuteSqlQuery(engine: SqlEngine, query: Value): (out: string)
    ensures engine(query).Rendered? ==> out == engine(query).table
    ensures engine(query).Raised? ==> out == engine(query).message
  {
    match engine(query)
    case Rendered(table) => table
    case Raised(message) => message
  }

  /** Calls a tool with keyword arguments: `function_to_call(**arguments)`. */
  function Invoke(engine: SqlEngine, t: ToolName, args: map<string, Value>): (r: Result<Value, ToolError>)
    ensures r.Success? <==> Binds(t, args)
    ensures r.Failure? ==> r.error == BadArguments(t, args.Keys)
    ensures r.Success? && t == ExecuteSql ==> r.value.Str?
    ensures r.Success? && t == GenerateVegaSpec ==> r.value.Obj? && "encoding" in r.value.fields
  {
    if !Binds(t, args) then Failure(BadArguments(t, args.Keys))
    else match t
      case ExecuteSql => Success(Str(ExecuteSqlQuery(engine, args["sql_query"])))
      case GenerateVegaSpec =>
        Success(Vega.GenerateVegaSpec(args["question"], args["data_url"],
          ArgOr(args, "mark_type", Vega.DefaultMark), ArgOr(args, "x_field", Null),
          ArgOr(args, "y_field", Null), ArgOr(args, "color_field", Null)))
  }

  /**
   * One tool call: look the name up in `tool_map`, call the tool, and build the
   * tool message content `{**arguments, "result": result}`.
   */
  function Dispatch(engine: SqlEngine, name: string, args: map<string, Value>): (r: Result<map<string, Value>, ToolError>)
    ensures Lookup(name).None? ==> r == Failure(UnknownTool(name))
    ensures Lookup(name).Some? ==> (r.Success? <==> Binds(Lookup(name).value, args))
  {
    match Lookup(name)
    case None => Failure(UnknownTool(name))
    case Some(t) =>
      match Invoke(engine, t, args)
      case Failure(e) => Failure(e)
      case Success(result) => Success(args["result" := result])
  }

  /**
   * A dispatched call's tool message content is the call's arguments, unchanged,
   * plus a "result" key holding the tool's return value.
   */
  lemma DispatchMergesResult(engine: SqlEngine, name: string, args: map<string, Value>)
    requires Dispatch(engine, name, args).Success?
    ensures var content := Dispatch(engine, name, args).value;
      && content.Keys == args.Keys + {"result"}
      && (forall k | k in args && k != "result" :: content[k] == args[k])
      && Lookup(name).Some?
      && Invoke(engine, Lookup(name).value, args) == Success(content["result"])
  {
  }

  /**
   * An argument named "result" is not a parameter of either tool, so a call carrying one
   * fails to bind before the merge; the merge never overwrites an argument.
   */
  lemma ResultArgumentNeverOverwritten(engine: SqlEngine, name: string, args: map<string, Value>)
    requires "result" in args
    ensures Dispatch(engine, name, args).Failure?
  {
  }

  /**
   * A failing query never aborts the call: with its one argument, `execute_sql` always
   * yields a tool message, whose result is the engine's error text when the engine raises.
   */
  lemma SqlErrorsBecomeToolOutput(engine: SqlEngine, query: Value)
    ensures var r := Dispatch(engine, "execute_sql", map["sql_query" := query]);
      && r.Success?
      && r.value["sql_query"] == query
      && (engine(query).Raised? ==> r.value["result"] == Str(engine(query).message))
      && (engine(query).Rendered? ==> r.value["result"] == Str(engine(query).table))
  {
  }

  /**
   * A chart call that binds yields a tool message whose result encodes both axes as
   * "ordinal" when the given mark is "text" and "quantitative" otherwise, including
   * when the mark is left out and defaults to "bar".
   */
  lemma ChartCallAxisTypes(engine: SqlEngine, args: map<string, Value>)
    requires Binds(GenerateVegaSpec, args)
    ensures var r := Dispatch(engine, "generate_vega_spec", args);
      var axisType := if "mark_type" in args && args["mark_type"] == Str("text") then Str("ordinal") else Str("quantitative");
      && r.Success?
      && At(Obj(r.value), ["result", "mark"]) == Some(ArgOr(args, "mark_type", Str("bar")))
      && At(Obj(r.value), ["result", "encoding", "x", "type"]) == Some(axisType)
      && At(Obj(r.value), ["result", "encoding", "y", "type"]) == Some(axisType)
      && At(Obj(r.value), ["result", "encoding", "x", "field"]) == Some(ArgOr(args, "x_field", Null))
      && At(Obj(r.value), ["result", "encoding", "y", "field"]) == Some(ArgOr(args, "y_field", Null))
      && At(Obj(r.value), ["result", "description"]) == Some(args["question"])
      && At(Obj(r.value), ["result", "data", "url"]) == Some(args["data_url"])
  {
    var r := Dispatch(engine, "generate_vega_spec", args);
    var mark := ArgOr(args, "mark_type", Vega.DefaultMark);
    var spec := r.value["result"];
    Vega.AxisTypeFollowsMark(args["question"], args["data_url"], mark,
      ArgOr(args, "x_field", Null), ArgOr(args, "y_field", Null), ArgOr(args, "color_field", Null));
    Vega.SpecEchoesInputs(args["question"], args["data_url"], mark,
      ArgOr(args, "x_field", Null), ArgOr(args, "y_field", Null), ArgOr(args, "color_field", Null));
    assert At(Obj(r.value), ["result", "mark"]) == At(spec, ["mark"]);
    assert At(Obj(r.value), ["result", "encoding", "x", "type"]) == At(spec, ["encoding", "x", "type"]);
    assert At(Obj(r.value), ["result", "encoding", "y", "type"]) == At(spec, ["encoding", "y", "type"]);
    assert At(Obj(r.value), ["result", "encoding", "x", "field"]) == At(spec, ["encoding", "x", "field"]);
    assert At(Obj(r.value), ["result", "encoding", "y", "field"]) == At(spec, ["encoding", "y", "field"]);
    assert At(Obj(r.value), ["result", "description"]) == At(spec, ["description"]);
    assert At(Obj(r.value), ["result", "data", "url"]) == At(spec, ["data", "url"]);
  }

  /** With the corrected schema, every argument object a schema admits binds to its tool. */
  lemma AdmittedArgumentsBind(s: ToolSchema, args: map<string, Value>)
    requires s in AdvertisedCorrected
    requires Admits(s.parameters, args)
    ensures Lookup(s.name).Some? && Binds(Lookup(s.name).value, args)
  {
  }

  /**
   * The schema as written admits an extra argument (the parameter object is left open),
   * which `execute_sql(**arguments)` then rejects with a TypeError.
   */
  lemma ExecuteSqlSchemaAsWrittenAdmitsUnboundArguments()
    ensures var args := map["sql_query" := Str("SELECT 1"), "limit" := Str("5")];
      Admits(ExecuteSqlSchemaAsWritten.parameters, args) && !Binds(ExecuteSql, args)
  {
    var args := map["sql_query" := Str("SELECT 1"), "limit" := Str("5")];
    assert "limit" in args.Keys && "limit" !in Parameters(ExecuteSql);
  }
}
