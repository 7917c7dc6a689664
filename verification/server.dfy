/** The two POST endpoints: `/chat`, which turns a question into SQL, runs it and
    words the result (or falls back to small talk), and `/refresh-schema`. The
    query runner is a parameter like the model; `Chat` returns the reply together
    with the calls it made, in order, so that what was asked of the model and of
    the warehouse can be stated. */
module Server {
  import opened Wrappers
  import opened Text
  import opened Settings
  import opened Records
  import KuwaitClock
  import opened GeminiClient
  import opened BigQueryClient

  datatype ChatRequest = ChatRequest(message: string, history: seq<Turn>)

  /** The `/chat` body: `sql`, `data` and `error` default to null. */
  datatype ChatResponse = ChatResponse(answer: string, sql: Option<string>, data: Option<seq<Row>>, error: Option<string>)

  /** A response body, or the `HTTPException` raised instead. */
  datatype Reply = Response(body: ChatResponse) | HttpError(status: int, detail: string)

  /** `run_query(sql)`: the rows, or the error the warehouse raised. */
  type Runner = string -> Result<seq<Row>>

  /** A call to a collaborator: a prompt sent to the model, or SQL sent to the warehouse. */
  datatype Call = Generate(prompt: string) | RunQuery(sql: string)

  datatype Exchange = Exchange(reply: Reply, calls: seq<Call>)

  const InternalServerError: int := 500

  /** What `datetime.now(KUWAIT_TZ)` raises when the local date passes year 9999. */
  const ClockOverflow: string := "date value out of range"

  /** `"unanswerable" in sql.lower() or not sql`. */
  predicate IsUnanswerable(sql: string)
  {
    sql == [] || Contains(Lower(sql), "unanswerable")
  }

  /** The question handed to the fallback prompt when the query failed. */
  function FailureContext(message: string, error: string): string
  {
    "The user asked: '" + message + "'. The generated SQL failed with: " + error
      + ". Please apologize and suggest how they might rephrase their question."
  }

  /** The three response shapes the handler produces. */
  predicate IsSmallTalkReply(r: ChatResponse)
  {
    r.sql.None? && r.data.None? && r.error.None?
  }

  predicate IsQueryFailureReply(r: ChatResponse)
  {
    r.sql.Some? && r.data.None? && r.error.Some?
  }

  predicate IsDataReply(r: ChatResponse)
  {
    r.sql.Some? && r.data.Some? && r.error.None? && |r.data.value| <= RowCap
  }

  /** The reply is the model's answer to the last call, stripped, or the 500 that
      its error raised. */
  predicate AnswersLastCall(x: Exchange, model: Model)
  {
    |x.calls| > 0 && x.calls[|x.calls| - 1].Generate?
    && var outcome := model(x.calls[|x.calls| - 1].prompt);
    (x.reply.Response? ==> outcome.Ok? && x.reply.body.answer == Trim(outcome.value))
    && (x.reply.HttpError? ==> outcome == Err(x.reply.detail))
  }

  /** Calls made before the last one do not change which call the reply answers. */
  lemma EarlierCallsKeepLastCall(first: Call, rest: Exchange, model: Model)
    requires AnswersLastCall(rest, model)
    ensures AnswersLastCall(Exchange(rest.reply, [first] + rest.calls), model)
  {
    var calls := [first] + rest.calls;
    assert calls[|calls| - 1] == rest.calls[|rest.calls| - 1];
  }

  /** A reply that answers the last call is stripped of surrounding whitespace. */
  lemma AnsweredRepliesAreTrimmed(x: Exchange, model: Model)
    requires AnswersLastCall(x, model)
    ensures x.reply.Response? ==> IsTrimmed(x.reply.body.answer)
  {
    if x.reply.Response? {
      TrimIsTrimmedPiece(model(x.calls[|x.calls| - 1].prompt).value);
    }
  }

  /** A 500 raised by the only call made answers that call. */
  lemma FailedOnlyCall(call: Call, msg: string, model: Model)
    requires call.Generate? && model(call.prompt) == Err(msg)
    ensures AnswersLastCall(Exchange(HttpError(InternalServerError, msg), [call]), model)
  {
  }

  /** The small-talk branch: `generate_fallback_answer(req.message, req.history)`. */
  function SmallTalk(req: ChatRequest, model: Model, prose: Prose): (x: Exchange)
    ensures x.calls == [Generate(FallbackPrompt(prose, req.message, req.history))]
    ensures x.reply.HttpError? ==> x.reply.status == InternalServerError
    ensures x.reply.Response? ==> IsSmallTalkReply(x.reply.body)
    ensures AnswersLastCall(x, model)
  {
    var calls := [Generate(FallbackPrompt(prose, req.message, req.history))];
    match GenerateFallbackAnswer(model, prose, req.message, req.history)
    case Err(e) => Exchange(HttpError(InternalServerError, e), calls)
    case Ok(answer) => Exchange(Response(ChatResponse(answer, None, None, None)), calls)
  }

  /** The query branch: run `sql`; word the rows, or apologise with the error. */
  function Query(req: ChatRequest, sql: string, model: Model, prose: Prose, run: Runner, serialize: Serializer): (x: Exchange)
    ensures |x.calls| == 2 && x.calls[0] == RunQuery(sql) && x.calls[1].Generate?
    ensures x.reply.HttpError? ==> x.reply.status == InternalServerError
    ensures x.reply.Response? ==> x.reply.body.sql == Some(sql)
    ensures x.reply.Response? ==> IsQueryFailureReply(x.reply.body) || IsDataReply(x.reply.body)
    ensures AnswersLastCall(x, model)
  {
    match run(sql)
    case Err(error) =>
      var context := FailureContext(req.message, error);
      var calls := [RunQuery(sql), Generate(FallbackPrompt(prose, context, req.history))];
      (match GenerateFallbackAnswer(model, prose, context, req.history)
       case Err(e) => Exchange(HttpError(InternalServerError, e), calls)
       case Ok(answer) => Exchange(Response(ChatResponse(answer, Some(sql), None, Some(error))), calls))
    case Ok(rows) =>
      var calls := [RunQuery(sql), Generate(BuildAnswerPrompt(prose, serialize, req.message, sql, rows))];
      match GenerateAnswer(model, prose, serialize, req.message, sql, rows, req.history)
      case Err(e) => Exchange(HttpError(InternalServerError, e), calls)
      case Ok(answer) => Exchange(Response(ChatResponse(answer, Some(sql), Some(CapRows(rows)), None)), calls)
  }

  /** What follows a successful SQL generation: a sentinel goes to small talk,
      anything else is run. */
  function Route(req: ChatRequest, sql: string, model: Model, prose: Prose, run: Runner, serialize: Serializer): (x: Exchange)
    ensures 1 <= |x.calls| <= 2 && x.calls[|x.calls| - 1].Generate?
    ensures x.calls[0].RunQuery? <==> !IsUnanswerable(sql)
    ensures x.calls[0].RunQuery? ==> x.calls[0] == RunQuery(sql)
    ensures x.reply.HttpError? ==> x.reply.status == InternalServerError
    ensures x.reply.Response? ==> (x.reply.body.sql.Some? <==> !IsUnanswerable(sql))
    ensures x.reply.Response? && x.reply.body.sql.Some? ==> x.reply.body.sql == Some(sql) && |x.calls| == 2
    ensures AnswersLastCall(x, model)
    ensures x.reply.Response? ==>
      IsSmallTalkReply(x.reply.body) || IsQueryFailureReply(x.reply.body) || IsDataReply(x.reply.body)
  {
    if IsUnanswerable(sql) then SmallTalk(req, model, prose) else Query(req, sql, model, prose, run, serialize)
  }

  /** `chat(req)` once the SQL prompt `sqlCall` has been sent and the model's reply,
      fence-stripped, is `generated`: a failed model call is a 500, otherwise the
      reply is routed as small talk or as a query. */
  function AfterSqlPrompt(sqlCall: Call, generated: Result<string>, req: ChatRequest, model: Model, prose: Prose,
                          run: Runner, serialize: Serializer): (x: Exchange)
    ensures x.calls != [] && x.calls[0] == sqlCall
    ensures x.reply.HttpError? ==> x.reply.status == InternalServerError
    ensures x.reply.Response? ==>
      IsSmallTalkReply(x.reply.body) || IsQueryFailureReply(x.reply.body) || IsDataReply(x.reply.body)
    ensures generated.Err? ==> x == Exchange(HttpError(InternalServerError, generated.msg), [sqlCall])
  {
    match generated
    case Err(e) => Exchange(HttpError(InternalServerError, e), [sqlCall])
    case Ok(sql) =>
      var rest := Route(req, sql, model, prose, run, serialize);
      Exchange(rest.reply, [sqlCall] + rest.calls)
  }

  /** `chat(req)` once the schema slot has been read (`schema`) and, when that
      succeeded, the products slot (`products`). `utc` is the clock reading. Every
      exception inside becomes a 500 carrying its message. */
  function Chat(cfg: Config, req: ChatRequest, schema: Result<string>, products: seq<string>,
                utc: KuwaitClock.DateTime, model: Model, prose: Prose, run: Runner, serialize: Serializer): (x: Exchange)
    requires KuwaitClock.Valid(utc) && utc.year <= KuwaitClock.MaxYear
    ensures x.reply.HttpError? ==> x.reply.status == InternalServerError
    ensures x.reply.Response? ==>
      IsSmallTalkReply(x.reply.body) || IsQueryFailureReply(x.reply.body) || IsDataReply(x.reply.body)
    ensures schema.Err? ==> x == Exchange(HttpError(InternalServerError, schema.msg), [])
    ensures schema.Ok? && !KuwaitClock.InRange(utc) ==> x == Exchange(HttpError(InternalServerError, ClockOverflow), [])
  {
    match schema
    case Err(e) => Exchange(HttpError(InternalServerError, e), [])
    case Ok(s) =>
      if !KuwaitClock.InRange(utc) then Exchange(HttpError(InternalServerError, ClockOverflow), [])
      else
        AfterSqlPrompt(Generate(BuildSqlPrompt(prose, cfg, req.message, s, products, req.history, utc)),
                       GenerateSql(model, prose, cfg, req.message, s, products, req.history, utc),
                       req, model, prose, run, serialize)
  }

  /** At most three calls: the SQL prompt first, then at most one query, then a
      model call. The query never runs the `unanswerable` sentinel or an empty reply,
      and a reply that carries `sql` is the one whose query ran. */
  predicate QueriesOnce(x: Exchange)
  {
    |x.calls| <= 3
    && (|x.calls| > 0 ==> x.calls[0].Generate?)
    && (|x.calls| > 2 ==> x.calls[2].Generate?)
    && (|x.calls| > 1 && x.calls[1].RunQuery? ==> !IsUnanswerable(x.calls[1].sql))
    && (x.reply.Response? && x.reply.body.sql.Some? ==>
          |x.calls| == 3 && x.calls[1] == RunQuery(x.reply.body.sql.value))
  }

  /** The warehouse is queried at most once per request, only with the generated
      SQL and only after the SQL prompt. */
  lemma ChatQueriesOnce(cfg: Config, req: ChatRequest, schema: Result<string>, products: seq<string>,
                        utc: KuwaitClock.DateTime, model: Model, prose: Prose, run: Runner, serialize: Serializer)
    requires KuwaitClock.Valid(utc) && utc.year <= KuwaitClock.MaxYear
    ensures QueriesOnce(Chat(cfg, req, schema, products, utc, model, prose, run, serialize))
  {
    var x := Chat(cfg, req, schema, products, utc, model, prose, run, serialize);
    if schema.Ok? && KuwaitClock.InRange(utc) {
      var s := schema.value;
      AfterSqlQueriesOnce(Generate(BuildSqlPrompt(prose, cfg, req.message, s, products, req.history, utc)),
                          GenerateSql(model, prose, cfg, req.message, s, products, req.history, utc),
                          req, model, prose, run, serialize);
    } else {
      FailedBeforeQuery(x.reply, x.calls);
    }
  }

  lemma AfterSqlQueriesOnce(sqlCall: Call, generated: Result<string>, req: ChatRequest, model: Model, prose: Prose,
                            run: Runner, serialize: Serializer)
    requires sqlCall.Generate?
    ensures QueriesOnce(AfterSqlPrompt(sqlCall, generated, req, model, prose, run, serialize))
  {
    var x := AfterSqlPrompt(sqlCall, generated, req, model, prose, run, serialize);
    if generated.Ok? {
      var rest := Route(req, generated.value, model, prose, run, serialize);
      assert x == Exchange(rest.reply, [sqlCall] + rest.calls);
      SqlPromptThenRoute(sqlCall, generated.value, rest);
    } else {
      FailedBeforeQuery(x.reply, x.calls);
    }
  }

  /** A 500 raised before any query ran. */
  lemma FailedBeforeQuery(reply: Reply, calls: seq<Call>)
    requires reply.HttpError? && |calls| <= 1 && (calls != [] ==> calls[0].Generate?)
    ensures QueriesOnce(Exchange(reply, calls))
  {
  }

  /** The SQL prompt followed by what `Route` did for `sql`: at most three calls,
      model calls first and last, and the one query, if any, runs `sql`. */
  lemma SqlPromptThenRoute(sqlCall: Call, sql: string, rest: Exchange)
    requires sqlCall.Generate?
    requires 1 <= |rest.calls| <= 2 && rest.calls[|rest.calls| - 1].Generate?
    requires rest.calls[0].RunQuery? ==> rest.calls[0] == RunQuery(sql) && !IsUnanswerable(sql)
    requires rest.reply.Response? && rest.reply.body.sql.Some? ==>
      rest.reply.body.sql == Some(sql) && rest.calls[0].RunQuery? && |rest.calls| == 2
    ensures QueriesOnce(Exchange(rest.reply, [sqlCall] + rest.calls))
  {
    var calls := [sqlCall] + rest.calls;
    assert calls[0] == sqlCall;
    assert calls[1] == rest.calls[0];
    if |calls| > 2 {
      assert calls[2] == rest.calls[1];
    }
  }

  /** The apology prompt quotes both the user's message and the warehouse error. */
  lemma FailureContextQuotes(message: string, error: string)
    ensures Contains(FailureContext(message, error), message)
    ensures Contains(FailureContext(message, error), error)
  {
    var opening := "The user asked: '";
    var middle := "'. The generated SQL failed with: ";
    var closing := ". Please apologize and suggest how they might rephrase their question.";
    assert OccursAt(message, message, 0);
    assert OccursAt(error, error, 0);
    ContainsWithin(opening, message, middle + error + closing, message);
    assert opening + message + (middle + error + closing) == FailureContext(message, error);
    ContainsWithin(opening + message + middle, error, closing, error);
    assert opening + message + middle + error + closing == FailureContext(message, error);
  }

  /** A failed query is answered by an apology that quotes the question and the
      error, and the reply carries the SQL and the error but no data. */
  lemma QueryFailureApologises(req: ChatRequest, sql: string, model: Model, prose: Prose, run: Runner,
                               serialize: Serializer)
    requires run(sql).Err?
    ensures var x := Query(req, sql, model, prose, run, serialize);
      var context := FailureContext(req.message, run(sql).msg);
      x.calls[1] == Generate(FallbackPrompt(prose, context, req.history))
      && Contains(context, req.message) && Contains(context, run(sql).msg)
      && (model(FallbackPrompt(prose, context, req.history)).Ok? ==>
            x.reply == Response(ChatResponse(Trim(model(FallbackPrompt(prose, context, req.history)).value),
                                             Some(sql), None, Some(run(sql).msg))))
  {
    FailureContextQuotes(req.message, run(sql).msg);
  }

  /** A successful query is worded from its first fifty rows, and exactly those rows
      come back as `data`. */
  lemma DataReplyCarriesFirstRows(req: ChatRequest, sql: string, model: Model, prose: Prose, run: Runner,
                                  serialize: Serializer)
    requires run(sql).Ok?
    ensures var x := Query(req, sql, model, prose, run, serialize);
      var rows := run(sql).value;
      var prompt := BuildAnswerPrompt(prose, serialize, req.message, sql, rows);
      x.calls[1] == Generate(prompt)
      && (model(prompt).Ok? ==>
            (x.reply.Response? && x.reply.body.data.Some?
             && x.reply.body.data.value == rows[..|x.reply.body.data.value|]
             && |x.reply.body.data.value| == (if |rows| < RowCap then |rows| else RowCap)))
  {
  }

  /** Every answer is the model's reply to the last prompt sent, stripped of
      surrounding whitespace. */
  lemma AnswersAreStrippedReplies(cfg: Config, req: ChatRequest, schema: Result<string>, products: seq<string>,
                                utc: KuwaitClock.DateTime, model: Model, prose: Prose, run: Runner,
                                serialize: Serializer)
    requires KuwaitClock.Valid(utc) && utc.year <= KuwaitClock.MaxYear
    ensures var x := Chat(cfg, req, schema, products, utc, model, prose, run, serialize);
      x.reply.Response? ==> AnswersLastCall(x, model) && IsTrimmed(x.reply.body.answer)
  {
    if schema.Ok? && KuwaitClock.InRange(utc) {
      var s := schema.value;
      AfterSqlAnswersLastCall(Generate(BuildSqlPrompt(prose, cfg, req.message, s, products, req.history, utc)),
                              GenerateSql(model, prose, cfg, req.message, s, products, req.history, utc),
                              req, model, prose, run, serialize);
    }
  }

  /** Every 500 carries the message of what failed: the schema read, the clock, or
      the last model call. A failed query alone never produces one. */
  lemma InternalErrorsCarryCause(cfg: Config, req: ChatRequest, schema: Result<string>, products: seq<string>,
                                utc: KuwaitClock.DateTime, model: Model, prose: Prose, run: Runner,
                                serialize: Serializer)
    requires KuwaitClock.Valid(utc) && utc.year <= KuwaitClock.MaxYear
    ensures var x := Chat(cfg, req, schema, products, utc, model, prose, run, serialize);
      x.reply.HttpError? ==>
        (schema.Err? && x.reply.detail == schema.msg)
        || (schema.Ok? && !KuwaitClock.InRange(utc) && x.reply.detail == ClockOverflow)
        || AnswersLastCall(x, model)
  {
    if schema.Ok? && KuwaitClock.InRange(utc) {
      var s := schema.value;
      AfterSqlAnswersLastCall(Generate(BuildSqlPrompt(prose, cfg, req.message, s, products, req.history, utc)),
                              GenerateSql(model, prose, cfg, req.message, s, products, req.history, utc),
                              req, model, prose, run, serialize);
    }
  }

  /** Once the SQL prompt has been sent, whatever the reply is (an answer or a 500)
      it comes from the last model call; an answer is stripped of whitespace. */
  lemma AfterSqlAnswersLastCall(sqlCall: Call, generated: Result<string>, req: ChatRequest, model: Model,
                                prose: Prose, run: Runner, serialize: Serializer)
    requires sqlCall.Generate? && (generated.Err? ==> model(sqlCall.prompt) == generated)
    ensures var x := AfterSqlPrompt(sqlCall, generated, req, model, prose, run, serialize);
      AnswersLastCall(x, model) && (x.reply.Response? ==> IsTrimmed(x.reply.body.answer))
  {
    var x := AfterSqlPrompt(sqlCall, generated, req, model, prose, run, serialize);
    if generated.Ok? {
      var rest := Route(req, generated.value, model, prose, run, serialize);
      assert x == Exchange(rest.reply, [sqlCall] + rest.calls);
      EarlierCallsKeepLastCall(sqlCall, rest, model);
    } else {
      FailedOnlyCall(sqlCall, generated.msg, model);
    }
    AnsweredRepliesAreTrimmed(x, model);
  }

  /** The sentinel test ignores case and also fires on an empty reply. */
  lemma SentinelExamples()
    ensures IsUnanswerable("")
    ensures IsUnanswerable("UNANSWERABLE")
    ensures !IsUnanswerable("SELECT 1")
  {
    assert Lower("UNANSWERABLE") == "unanswerable";
    assert OccursAt(Lower("UNANSWERABLE"), "unanswerable", 0);
  }

  /** Any reply that merely mentions the word, such as a query selecting the string
      `'unanswerable'`, is treated as the sentinel and never run. */
  lemma MentionIsSentinel(before: string, after: string)
    ensures IsUnanswerable(before + "unanswerable" + after)
  {
    var word := "unanswerable";
    LowerAppend(before + word, after);
    LowerAppend(before, word);
    assert Lower(word) == word;
    var lowered := Lower(before) + word + Lower(after);
    assert lowered[|before|..|before| + |word|] == word;
    assert OccursAt(Lower(before + word + after), word, |before|);
  }

  // ---- /refresh-schema ----

  /** How much of the schema text the refresh endpoint echoes back. */
  const PreviewLength: nat := 500

  /** `schema[:500]`: the first 500 characters, or all of a shorter text. */
  function Preview(schema: string): (p: string)
    ensures |p| == if |schema| < PreviewLength then |schema| else PreviewLength
    ensures p == schema[..|p|]
  {
    if |schema| <= PreviewLength then schema else schema[..PreviewLength]
  }

  /** The preview of a schema of at most 500 characters is the whole schema, and
      text past the 500th character never shows. */
  lemma PreviewIgnoresTail(schema: string, more: string)
    ensures |schema| <= PreviewLength ==> Preview(schema) == schema
    ensures |schema| >= PreviewLength ==> Preview(schema + more) == Preview(schema)
  {
    if |schema| >= PreviewLength {
      assert (schema + more)[..PreviewLength] == schema[..PreviewLength];
    }
  }

  /** The `/refresh-schema` body. */
  datatype RefreshReply = RefreshReply(status: string, schemaPreview: string)

  // ---- The endpoints over the shared cache ----

  /** `POST /chat`: read the schema slot, then (only if that succeeded) the products
      slot, then run the handler. The service passes `SourceProse` as `prose`. */
  method HandleChat(cache: MetadataCache, req: ChatRequest, wh: Warehouse, utc: KuwaitClock.DateTime,
                    model: Model, prose: Prose, run: Runner, serialize: Serializer) returns (x: Exchange)
    requires cache.Valid() && KuwaitClock.Valid(utc) && utc.year <= KuwaitClock.MaxYear
    modifies cache
    ensures cache.Valid()
    ensures var sl := SchemaLookup(cache.cfg, old(cache.State()), wh);
      sl.result.Err? ==>
        cache.log == old(cache.log) + [GetSchema(wh)] && cache.State() == old(cache.State())
        && x == Exchange(HttpError(InternalServerError, sl.result.msg), [])
    ensures var sl := SchemaLookup(cache.cfg, old(cache.State()), wh);
      var pl := ProductsLookup(sl.state, wh);
      sl.result.Ok? ==>
        cache.log == old(cache.log) + [GetSchema(wh), GetProducts(wh)] && cache.State() == pl.state
        && x == Chat(cache.cfg, req, sl.result, pl.result, utc, model, prose, run, serialize)
  {
    var schema := cache.GetCachedSchema(wh);
    if schema.Err? {
      return Exchange(HttpError(InternalServerError, schema.msg), []);
    }
    var products := cache.GetCachedProducts(wh);
    x := Chat(cache.cfg, req, schema, products, utc, model, prose, run, serialize);
  }

  /** `POST /refresh-schema`: clear both slots, read the schema again and echo its
      first 500 characters. It has no handler of its own, so an error escapes as is. */
  method RefreshSchema(cache: MetadataCache, wh: Warehouse) returns (r: Result<RefreshReply>)
    requires cache.Valid()
    modifies cache
    ensures cache.Valid() && cache.log == old(cache.log) + [Refresh(wh)]
    ensures var l := RefreshLookup(cache.cfg, old(cache.State()), wh);
      cache.State() == l.state
      && (r.Ok? <==> l.result.Ok?)
      && (r.Ok? ==> r.value == RefreshReply("ok", Preview(l.result.value)))
      && (r.Err? ==> r.msg == l.result.msg)
  {
    var schema := cache.RefreshCaches(wh);
    if schema.Err? {
      return Err(schema.msg);
    }
    r := Ok(RefreshReply("ok", Preview(schema.value)));
  }
}
