# Vendit chatbot server: a Dafny model

The service answers questions about vending-machine sales. A `POST /chat`
request carries a message and the recent conversation. The service:

1. reads the table schema and the list of known product names from two memo slots;
2. asks Gemini to turn the question into BigQuery SQL;
3. runs that SQL;
4. asks Gemini to word the rows as a friendly answer.

When Gemini replies with the sentinel `unanswerable`, or with nothing, the
service skips the warehouse and makes small talk instead. When the query fails,
Gemini apologises. Any other failure becomes an HTTP 500. `POST /refresh-schema`
clears both memo slots, re-reads the schema and echoes its first 500 characters.

The model has these modules:

- `Wrappers`: `Option` and `Result`.
- `Text`: join, strip, substring search and lower-casing.
- `Records`: result rows and the 50-row cap.
- `Settings`: project, dataset and table.
- `KuwaitClock`: the UTC+3 shift and the `%Y-%m-%d %H:%M:%S` format.
- `GeminiClient`: the three prompts and the clean-up of the SQL the model returns.
- `BigQueryClient`: the schema text, the product list, the cache as pure lookups and as the class `MetadataCache`.
- `Server`: the `/chat` decision flow and both endpoints over the cache.

Three things are parameters rather than code:

- Gemini is a function from prompt to `Result<string>`.
- The warehouse query is a function from SQL to `Result<seq<Row>>`.
- `json.dumps` is a function from rows to text.

`Chat` returns the reply together with the ordered list of calls it made to the
model and to the warehouse. That list is what lets "the query runs exactly once"
and "no query on the sentinel" be stated.

The fixed wording of the prompts is a `Prose` parameter, because no decision
depends on it. This covers the role statements, the few-shot examples, the rule
lines around the one that names the table, and the answer-style guidance.
`GeminiClient.SourceProse` holds the text the service sends. Every property of
the prompt builders holds for any wording. Of the service's own wording, only its
rule lines are stated about: `GeminiClient.SourceRules` says there are seven,
among them the single-table rule and the `unanswerable` rule.

## Model

| member | source | states |
|---|---|---|
| Records.CapRows | gemini_client.py:71 | `rows[:50]` is the first min(50, n) rows, as a prefix, in order |
| Settings.FullTable | gemini_client.py:12 | the table reference is the project, the dataset and the table, in that order, separated by dots and enclosed in back-quotes, with nothing else in it |
| KuwaitClock.ToKuwait | gemini_client.py:13 | the local time is a valid date and time with the same minute and second |
| KuwaitClock.KuwaitIsThreeHoursAhead | gemini_client.py:13 | the Kuwait reading is exactly 3 × 3600 seconds after the UTC one, across day, month, year and leap-day carries |
| KuwaitClock.NextDayIsOneDayLater | gemini_client.py:13 | the next calendar day is a valid date exactly one day later |
| KuwaitClock.Pad | gemini_client.py:18 | a zero-padded field has exactly the width asked for and is all digits |
| KuwaitClock.PadValue | gemini_client.py:18 | a zero-padded field reads back as the number it renders |
| KuwaitClock.Format | gemini_client.py:18 | the stamp is 19 characters of digits with `-`, space and `:` at the strftime positions |
| KuwaitClock.FormatRoundTrip | gemini_client.py:18 | parsing a formatted stamp gives back the date and time |
| KuwaitClock.KuwaitTime | gemini_client.py:16-18 | the current Kuwait time is rendered in the 19-character timestamp shape |
| KuwaitClock.KuwaitTimeReadsBack | gemini_client.py:16-18 | the stamp reads back as the UTC reading shifted to UTC+3 |
| GeminiClient.TimeContext | gemini_client.py:23 | the time line is the fixed prefix followed by 19 characters |
| GeminiClient.TimeContextStatesKuwaitTime | gemini_client.py:23 | after the prefix comes a stamp that parses to the Kuwait time, exactly three hours after the clock reading |
| GeminiClient.Window | gemini_client.py:26 | `(history or [])[-6:]` is the last min(6, n) turns in order |
| GeminiClient.RenderTurns | gemini_client.py:26 | one `role: content` line per turn, in order |
| GeminiClient.HistoryContextEmpty | gemini_client.py:25-27 | the history block is empty if and only if there is no history |
| GeminiClient.HistoryIgnoresOlderTurns | gemini_client.py:25-27 | turns older than the last six never reach the prompt |
| GeminiClient.HistoryGrowsByOneLine | gemini_client.py:25-27 | below the window, one more turn adds `\n` and its line at the end |
| GeminiClient.HistoryShowsRecentTurn | gemini_client.py:25-27 | each of the last six turns appears in the block |
| GeminiClient.ProductsHintEmpty | gemini_client.py:22 | the hint is empty if and only if the product list is |
| GeminiClient.ProductsHintInOrder | gemini_client.py:22 | names appear in list order, separated by `, ` |
| GeminiClient.ProductsHintNamesEach | gemini_client.py:22 | the hint starts `Known products in database: ` and names every product |
| GeminiClient.SqlRules | gemini_client.py:52-58 | the rule lines keep the wording's order, with the single-table rule naming the configured table placed between the rules before it and the rules after it |
| GeminiClient.SqlTemplateOrder | gemini_client.py:29-61 | schema, products hint, time line, history and question appear verbatim in that order, each at the offset fixed by what precedes it |
| GeminiClient.SqlPromptStatesRules | gemini_client.py:51-58 | every rule line appears verbatim in every SQL prompt |
| GeminiClient.OpeningFenceLeavesSuffix | gemini_client.py:65 | removing the opening fence keeps a suffix that starts without whitespace |
| GeminiClient.ClosingFenceLeavesPrefix | gemini_client.py:66 | removing the closing fence keeps a prefix that ends without whitespace |
| GeminiClient.CleanSqlIsTrimmedPiece | gemini_client.py:64-66 | clean-up only removes text, and what is left has no whitespace at either end |
| GeminiClient.CleanSqlWithoutFences | gemini_client.py:64-66 | output without fences comes back merely stripped |
| GeminiClient.OpeningFenceRemoved | gemini_client.py:65 | an opening fence, with or without `sql`, is removed together with any run of whitespace after it, and the text after that is kept up to its leading whitespace |
| GeminiClient.ClosingFenceRemoved | gemini_client.py:66 | a closing fence is removed together with any run of whitespace before it, and the text before that loses only its trailing whitespace |
| GeminiClient.CleanSqlUnfences | gemini_client.py:64-66 | clean-up undoes fencing a stripped query, tagged or not, including the empty query |
| GeminiClient.CleanSqlExample | gemini_client.py:64-66 | the fenced `SELECT 1` cleans to `SELECT 1` |
| GeminiClient.GenerateSql | gemini_client.py:63-67 | the SQL is the cleaned-up model reply to the SQL prompt, and a model error passes through unchanged |
| GeminiClient.AnswerPromptIgnoresRowsPastCap | gemini_client.py:71 | rows after the fiftieth never change the answer prompt |
| GeminiClient.AnswerPromptSeesShortResults | gemini_client.py:71-79 | up to fifty rows, all of them are serialised into the prompt |
| GeminiClient.GenerateAnswer | gemini_client.py:94-95 | the answer is the stripped model reply to the answer prompt, and a model error passes through unchanged |
| GeminiClient.FallbackPrompt | gemini_client.py:110 | the fallback prompt ends with `User: ` and the question |
| GeminiClient.FallbackIgnoresHistory | gemini_client.py:98-110 | the fallback prompt is the same whatever history is passed |
| GeminiClient.GenerateFallbackAnswer | gemini_client.py:112-113 | the reply is the stripped model reply to the fallback prompt, and a model error passes through unchanged |
| GeminiClient.SourceRules | gemini_client.py:52-58 | the service sends seven rule lines: the fourth confines the query to the configured table, and the last asks for `unanswerable` |
| BigQueryClient.ColumnEntries | bigquery_client.py:26 | one `name (type)` entry per field, in schema order |
| BigQueryClient.SchemaTextInOrder | bigquery_client.py:26-27 | columns are listed in schema order, separated by `, ` |
| BigQueryClient.SchemaTextNamesEachColumn | bigquery_client.py:27 | the text starts `Table: <table>\nColumns: ` and names every column with its type |
| BigQueryClient.GetTableSchema | bigquery_client.py:21-27 | the schema text when the table can be read, and otherwise the error |
| BigQueryClient.ProductNames | bigquery_client.py:37 | one name per returned row, in row order |
| BigQueryClient.GetKnownProducts | bigquery_client.py:30-39 | a failing product query gives `[]`, and never an error |
| BigQueryClient.SchemaLookup | bigquery_client.py:52-56 | a set slot is returned without fetching; an unset slot fetches and stores on success; a failed fetch leaves the slots untouched |
| BigQueryClient.ProductsLookup | bigquery_client.py:59-63 | a set slot is returned without fetching; an unset slot fetches and stores whatever comes back, `[]` included |
| BigQueryClient.RefreshLookup | bigquery_client.py:66-70 | refresh always re-fetches the schema, leaves the products slot unset and sets the schema slot only on success |
| BigQueryClient.SchemaReadTwice | bigquery_client.py:52-56 | once a read succeeded, the next read returns the same text without fetching |
| BigQueryClient.FailedProductFetchIsMemoized | bigquery_client.py:38-63 | a failed product fetch yields `[]`, and the next read returns `[]` without fetching |
| BigQueryClient.ProductsFetchedAtMostOnce | bigquery_client.py:59-63 | between refreshes the product query runs at most once, and not at all once the slot is set |
| BigQueryClient.SchemaKeptUntilRefresh | bigquery_client.py:52-56 | once the schema is cached, no read fetches it again until a refresh |
| BigQueryClient.FailingSchemaIsRetried | bigquery_client.py:54-55 | while the schema fetch fails, the slot stays unset and every read asks the warehouse again |
| BigQueryClient.MetadataCache.constructor | bigquery_client.py:48-49 | both slots start unset |
| BigQueryClient.MetadataCache.GetCachedSchema | bigquery_client.py:52-56 | the new slots and the result are those of `SchemaLookup` on the old slots |
| BigQueryClient.MetadataCache.GetCachedProducts | bigquery_client.py:59-63 | the new slots and the result are those of `ProductsLookup` on the old slots |
| BigQueryClient.MetadataCache.RefreshCaches | bigquery_client.py:66-70 | the new slots and the result are those of `RefreshLookup` |
| Server.SmallTalk | main.py:44-46 | one fallback call with the message and history; the reply sets no `sql`, `data` or `error`, or is a 500 carrying the model error |
| Server.Query | main.py:49-63 | the SQL runs first, then one model call; the reply carries the SQL and is either a query-failure or a data reply |
| Server.Route | main.py:44-63 | a query is run if and only if the SQL is not the sentinel, and the reply carries `sql` under the same condition |
| Server.AfterSqlPrompt | main.py:41-63 | after the SQL prompt, which is always the first call, a failed model call is a 500 carrying its message; every response has one of the three field shapes |
| Server.Chat | main.py:34-67 | a schema failure or a clock overflow gives a 500 with its message and calls nothing; every response has one of the three field shapes, and every error is a 500 |
| Server.ChatQueriesOnce | main.py:41-50 | the warehouse is queried at most once, after the SQL prompt and never with the sentinel; a reply carrying `sql` is the one whose query ran |
| Server.FailureContextQuotes | main.py:54-55 | the apology prompt quotes both the user's message and the error text |
| Server.QueryFailureApologises | main.py:49-58 | a failed query leads to one fallback call with the apology context, and the reply carries the SQL and the error but no data |
| Server.DataReplyCarriesFirstRows | main.py:61-63 | a successful query is worded from the capped rows, and `data` is exactly the first min(50, n) rows |
| Server.AfterSqlQueriesOnce | main.py:41-50 | after the SQL prompt there is at most one query, never on the sentinel, followed by one model call |
| Server.AfterSqlAnswersLastCall | main.py:41-63 | after the SQL prompt, every answer and every 500 comes from the last model call, and an answer is stripped |
| Server.AnswersAreStrippedReplies | main.py:34-63 | every answer is the stripped model reply to the last prompt sent |
| Server.InternalErrorsCarryCause | main.py:36-67 | every 500 carries the message of the schema read, the clock or the last model call, and never comes from a failed query alone |
| Server.SentinelExamples | main.py:44 | an empty reply and an upper-case `UNANSWERABLE` are the sentinel, and `SELECT 1` is not |
| Server.MentionIsSentinel | main.py:44 | any text containing `unanswerable` is the sentinel, wherever the word occurs |
| Server.Preview | main.py:73 | `schema[:500]` is the first min(500, n) characters |
| Server.PreviewIgnoresTail | main.py:73 | a schema of at most 500 characters is echoed whole, and nothing past the 500th character shows |
| Server.HandleChat | main.py:34-67 | reads the schema slot, then the products slot only if the schema read succeeded, and replies as `Chat` on those results |
| Server.RefreshSchema | main.py:70-73 | the slots change as `RefreshLookup` says; the reply is status `ok` with the preview of the new schema, or the refresh error |

## Left out

- The Gemini SDK set-up and `generate_content` (gemini_client.py:8-10) are left out. The model is a parameter, and nothing is claimed about what it says.
- BigQuery client construction and credentials (`get_client`) are left out, as are the `get_table`, product and `run_query` calls. These are I/O. Their outcomes are the `Warehouse` record and the `Runner` parameter.
- Because `get_client` is left out, so is its position outside the `try` in `get_known_products`. A credentials failure there would raise, not yield `[]`. In the chat flow the schema read calls `get_client` first, so such a failure already surfaces there as a 500.
- `json.dumps(..., default=str)` is an opaque `Serializer`. Only which rows reach it is modelled.
- The clock read is left out. The UTC reading is a parameter, at most year 9999 as Python's `datetime` allows. When the three-hour shift carries the local date past year 9999, `datetime.now` raises "date value out of range", which `Chat` models as a 500 with that message.
- Row values are restricted to null, booleans, integers and strings. BigQuery rows can also hold floats, NUMERIC decimals, dates, timestamps, and repeated or nested fields. No property depends on what a value is: rows are only capped, passed through and serialised by the opaque `json.dumps` parameter.
- Microseconds are dropped, since the format never shows them.
- Python renders years below 1000 without zero padding on some platforms. The model pads to four digits.
- `str.strip`, `\s` and `str.lower` are approximated on ASCII: the ten ASCII whitespace characters (including U+001C to U+001F) and `A`–`Z`. Non-ASCII whitespace such as U+0085 or U+00A0 and non-ASCII case mappings are left out.
- Python's `$` also matches just before a final newline. After `strip` no final newline remains, so this case cannot arise and is not modelled.
- A history entry without a `role` or `content` key would raise `KeyError` and give a 500. History turns are typed records here, so that case is not modelled.
- `LIMIT 300` and `DISTINCT` in the product query are enforced by the warehouse, not by the code.
- Concurrency between the `async` handlers and the module-global slots is left out. The cache is modelled sequentially.
- The FastAPI app, CORS, pydantic validation, `traceback.print_exc`, `GET /health` and the uvicorn start-up are transport plumbing.
- config.py and ecosystem.config.js are not part of this model. Their values appear only as the `Config` record.
- Prompt construction is deterministic because every prompt is a Dafny function of its inputs, so no separate lemma states it.
- The wording of the role paragraphs, few-shot examples and answer guidance is not constrained by any property. It is part of the `Prose` parameter, and the service passes `GeminiClient.SourceProse`. Of the rule lines, only the single-table rule and the `unanswerable` rule are stated about (`GeminiClient.SourceRules`).
