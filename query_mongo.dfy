/**
 * The read-only document-store tool that the language model may call:
 * how its input is turned into one `find` or one `aggregate` request,
 * and how every outcome, failures included, becomes a returned value.
 *
 * Collaborators the code cannot see are parameters: `JSON.parse` is a
 * `JsonParser` (no value when it throws), the document store is a
 * function from the request issued to its outcome (a timeout is the
 * store raising an `AbortError`), and the connection string is the
 * optional `MONGODB_URI` setting.
 */
module QueryMongo {
  import opened Wrappers
  import opened Json

  const MAX_DOCUMENTS: int := 50
  const DEFAULT_LIMIT: int := 10

  const INVALID_FILTER_MESSAGE: string := "Invalid JSON in filter parameter"
  const TIMEOUT_MESSAGE: string := "Query timed out after 10 seconds"
  const FAILURE_PREFIX: string := "Query failed: "
  const UNKNOWN_ERROR: string := "Unknown error"
  const MISSING_URI_MESSAGE: string := "MONGODB_URI is not defined"

  /** `JSON.parse`: the parsed value, or `None` where it throws a syntax error. */
  type JsonParser = string -> Option<Json>

  /** The tool's input as the language model writes it. */
  datatype ToolInput = ToolInput(
    collection: string,
    operation: string,
    filter: string,
    projection: Option<string>,
    sort: Option<string>,
    limit: Option<int>)

  /** The input schema: `operation` is "find" or "aggregate"; `limit`, when given, lies in 1..50. */
  predicate SchemaAccepts(input: ToolInput)
  {
    && (input.operation == "find" || input.operation == "aggregate")
    && (input.limit.Some? ==> 1 <= input.limit.value <= MAX_DOCUMENTS)
  }

  /** A thrown value: an `Error` with its `name` and `message`, or anything else. */
  datatype Thrown = ErrorObject(name: string, message: string) | NonError

  /** The only two requests the tool can issue; neither writes. */
  datatype StoreCall =
    | Find(collection: string, filter: Json, projection: Json, sort: Json, limit: int)
    | Aggregate(collection: string, pipeline: seq<Json>)

  /** What the store gives back for one request: documents, or a thrown value. */
  datatype StoreOutcome = Documents(docs: seq<Json>) | Raised(thrown: Thrown)

  /** A connected client; only the connection string matters here. */
  datatype MongoClient = MongoClient(uri: string)

  /** What the tool returns to the model. */
  datatype ToolResult =
    | QueryResult(collection: string, operation: string, count: int, results: seq<Json>)
    | QueryError(error: string)

  /** `Math.min(limit ?? 10, 50)`: the number of documents asked of the store. */
  function EffectiveLimit(limit: Option<int>): (n: int)
    ensures n <= MAX_DOCUMENTS
    ensures limit.None? ==> n == DEFAULT_LIMIT
    ensures limit.Some? && limit.value <= MAX_DOCUMENTS ==> n == limit.value
    ensures limit.Some? && limit.value > MAX_DOCUMENTS ==> n == MAX_DOCUMENTS
  {
    var requested := if limit.Some? then limit.value else DEFAULT_LIMIT;
    if requested < MAX_DOCUMENTS then requested else MAX_DOCUMENTS
  }

  /** Within the schema, the limit sent to the store lies in 1..50. */
  lemma SchemaLimitInRange(input: ToolInput)
    requires SchemaAccepts(input)
    ensures 1 <= EffectiveLimit(input.limit) <= MAX_DOCUMENTS
  {
  }

  /**
   * `parseJson`: a syntax error reads as `null`, so a text that does not
   * parse and the text "null" give the same value.
   */
  function ParseJson(parse: JsonParser, value: string): (v: Json)
    ensures v == JNull <==> parse(value) == None || parse(value) == Some(JNull)
    ensures v != JNull ==> parse(value) == Some(v)
  {
    match parse(value)
    case None => JNull
    case Some(parsed) => parsed
  }

  /**
   * The filter of a `find`: the parsed value when `typeof` calls it an
   * object and it is no array, otherwise `{}`. Of JSON values, objects
   * and `null` pass that test.
   */
  function FindFilter(parsed: Json): (filter: Json)
    ensures parsed.JObject? || parsed.JNull? ==> filter == parsed
    ensures !(parsed.JObject? || parsed.JNull?) ==> filter == EmptyObject
  {
    if TypeofIsObject(parsed) && !IsArray(parsed) then parsed else EmptyObject
  }

  /**
   * The projection or the sort of a `find`: `{}` when the text is absent,
   * empty or parses to nothing (`null` or a syntax error); otherwise the
   * parsed value, whatever its shape.
   */
  function FindOption(parse: JsonParser, text: Option<string>): (option: Json)
    ensures text.None? || text == Some("") ==> option == EmptyObject
    ensures text.Some? && text.value != "" && (parse(text.value) == None || parse(text.value) == Some(JNull)) ==>
      option == EmptyObject
    ensures text.Some? && text.value != "" && parse(text.value).Some? && parse(text.value).value != JNull ==>
      option == parse(text.value).value
  {
    if text.Some? && text.value != "" then
      var parsed := ParseJson(parse, text.value);
      if parsed == JNull then EmptyObject else parsed
    else
      EmptyObject
  }

  /** The stage `{ $limit: limit }`. */
  function LimitStage(limit: int): Json
  {
    JObject([("$limit", JNumber(limit))])
  }

  /** The stages the model wrote: the parsed array, or none when the filter is no array. */
  function PipelineStages(parsed: Json): seq<Json>
  {
    if IsArray(parsed) then parsed.items else []
  }

  /**
   * The pipeline of an `aggregate`: the model's stages, unchanged and in
   * order, then a `$limit` stage as the very last one.
   */
  function AggregatePipeline(parsed: Json, limit: int): (pipeline: seq<Json>)
    ensures |pipeline| == |PipelineStages(parsed)| + 1
    ensures pipeline[..|pipeline| - 1] == PipelineStages(parsed)
    ensures pipeline[|pipeline| - 1] == LimitStage(limit)
  {
    PipelineStages(parsed) + [LimitStage(limit)]
  }

  /**
   * Whatever stages the model writes, the last stage of the pipeline
   * sent to the store caps the result at no more than 50 documents.
   */
  lemma AggregateCannotBypassLimit(parsed: Json, limit: Option<int>)
    ensures var pipeline := AggregatePipeline(parsed, EffectiveLimit(limit));
            exists n :: n <= MAX_DOCUMENTS && pipeline[|pipeline| - 1] == LimitStage(n)
  {
    var pipeline := AggregatePipeline(parsed, EffectiveLimit(limit));
    assert pipeline[|pipeline| - 1] == LimitStage(EffectiveLimit(limit));
  }

  /** The message a caught value is reported with. */
  function ClassifyError(thrown: Thrown): (message: string)
    ensures thrown.ErrorObject? && thrown.name == "AbortError" ==> message == TIMEOUT_MESSAGE
    ensures thrown.ErrorObject? && thrown.name != "AbortError" ==> message == FAILURE_PREFIX + thrown.message
    ensures thrown.NonError? ==> message == FAILURE_PREFIX + UNKNOWN_ERROR
  {
    if thrown.ErrorObject? && thrown.name == "AbortError" then TIMEOUT_MESSAGE
    else FAILURE_PREFIX + (if thrown.ErrorObject? then thrown.message else UNKNOWN_ERROR)
  }

  /** A timeout is told apart from every other failure, whatever that failure's message. */
  lemma TimeoutIsDistinct(thrown: Thrown)
    ensures ClassifyError(thrown) == TIMEOUT_MESSAGE <==> thrown.ErrorObject? && thrown.name == "AbortError"
  {
    if !(thrown.ErrorObject? && thrown.name == "AbortError") {
      var message := ClassifyError(thrown);
      assert message[6] == FAILURE_PREFIX[6] == 'f';
      assert TIMEOUT_MESSAGE[6] == 't';
    }
  }

  /** `getMongoClient`: fails when the connection string is unset or empty. */
  function GetMongoClient(uri: Option<string>): (client: Result<MongoClient, Thrown>)
    ensures client.Err? <==> uri.None? || uri == Some("")
    ensures client.Err? ==> client.error == ErrorObject("Error", MISSING_URI_MESSAGE)
    ensures client.Ok? ==> client.value.uri == uri.value
  {
    if uri.None? || uri.value == "" then Err(ErrorObject("Error", MISSING_URI_MESSAGE))
    else Ok(MongoClient(uri.value))
  }

  /**
   * `execute`: one tool call. Returns what the tool returns and the
   * request it issued to the store, if any. It never throws: every
   * failure comes back as a `QueryError`.
   */
  method Execute(input: ToolInput, parse: JsonParser, mongoUri: Option<string>, store: StoreCall -> StoreOutcome)
    returns (result: ToolResult, issued: Option<StoreCall>)
    ensures ParseJson(parse, input.filter) == JNull ==>
      result == QueryError(INVALID_FILTER_MESSAGE) && issued.None?
    ensures ParseJson(parse, input.filter) != JNull && GetMongoClient(mongoUri).Err? ==>
      result == QueryError(FAILURE_PREFIX + MISSING_URI_MESSAGE) && issued.None?
    ensures issued.Some? <==> ParseJson(parse, input.filter) != JNull && GetMongoClient(mongoUri).Ok?
    ensures issued.Some? && input.operation == "find" ==>
      issued.value == Find(input.collection, FindFilter(ParseJson(parse, input.filter)),
                           FindOption(parse, input.projection), FindOption(parse, input.sort),
                           EffectiveLimit(input.limit))
    ensures issued.Some? && input.operation != "find" ==>
      issued.value == Aggregate(input.collection,
                                AggregatePipeline(ParseJson(parse, input.filter), EffectiveLimit(input.limit)))
    ensures issued.Some? && store(issued.value).Documents? ==>
      result == QueryResult(input.collection, input.operation,
                            |store(issued.value).docs|, store(issued.value).docs)
    ensures issued.Some? && store(issued.value).Raised? ==>
      result == QueryError(ClassifyError(store(issued.value).thrown))
    ensures result.QueryResult? ==> issued.Some? && result.count == |result.results|
  {
    var limit := EffectiveLimit(input.limit);
    var parsedFilter := ParseJson(parse, input.filter);
    if parsedFilter == JNull {
      return QueryError(INVALID_FILTER_MESSAGE), None;
    }

    var client := GetMongoClient(mongoUri);
    if client.Err? {
      return QueryError(ClassifyError(client.error)), None;
    }

    var call: StoreCall;
    if input.operation == "find" {
      var filterObj := FindFilter(parsedFilter);
      var projection := FindOption(parse, input.projection);
      var sort := FindOption(parse, input.sort);
      call := Find(input.collection, filterObj, projection, sort, limit);
    } else {
      var pipelineWithLimit := AggregatePipeline(parsedFilter, limit);
      call := Aggregate(input.collection, pipelineWithLimit);
    }
    issued := Some(call);

    var outcome := store(call);
    match outcome {
      case Documents(results) =>
        result := QueryResult(input.collection, input.operation, |results|, results);
      case Raised(thrown) =>
        result := QueryError(ClassifyError(thrown));
    }
  }

  /**
   * A one-stage aggregate request that asks for 1000 documents is sent
   * with that stage followed by a `$limit` of 50.
   */
  lemma OversizedLimitIsCapped(parse: JsonParser, filter: string, stage: Json)
    requires parse(filter) == Some(JArray([stage]))
    ensures AggregatePipeline(ParseJson(parse, filter), EffectiveLimit(Some(1000))) == [stage, LimitStage(50)]
  {
  }
}
