/** The text around the three calls to the generative model: the SQL prompt and
    its inputs (history window, products hint, Kuwait timestamp), the clean-up of
    the model's SQL output, the answer prompt with its 50-row cap, and the
    fallback prompt. The model itself is a parameter: a function from prompt to
    text, or to the error it raised. */
module GeminiClient {
  import opened Wrappers
  import opened Text
  import opened Settings
  import opened Records
  import KuwaitClock

  /** One entry of `chat_history`: its `role` and `content` keys. */
  datatype Turn = Turn(role: string, content: string)

  /** `model.generate_content(prompt).text`, or the exception it raised. */
  type Model = string -> Result<string>

  /** `json.dumps(rows, default=str)`. */
  type Serializer = seq<Row> -> string

  /** How many trailing turns of the history reach the prompt. */
  const HistoryWindow: nat := 6

  // ---- Conversation history ----

  /** `(chat_history or [])[-6:]`. */
  function Window(history: seq<Turn>): (w: seq<Turn>)
    ensures |w| == if |history| < HistoryWindow then |history| else HistoryWindow
    ensures w == history[|history| - |w|..]
  {
    if |history| <= HistoryWindow then history else history[|history| - HistoryWindow..]
  }

  /** `f"{h['role']}: {h['content']}"`. */
  function RenderTurn(t: Turn): string
  {
    t.role + ": " + t.content
  }

  function RenderTurns(turns: seq<Turn>): (lines: seq<string>)
    ensures |lines| == |turns|
    ensures forall i :: 0 <= i < |turns| ==> lines[i] == RenderTurn(turns[i])
  {
    seq(|turns|, i requires 0 <= i < |turns| => RenderTurn(turns[i]))
  }

  /** `history_ctx`: the window, one `role: content` line per turn. */
  function HistoryContext(history: seq<Turn>): string
  {
    Join(RenderTurns(Window(history)), "\n")
  }

  /** The history block is empty exactly when there is no history. */
  lemma HistoryContextEmpty(history: seq<Turn>)
    ensures HistoryContext(history) == "" <==> history == []
  {
    if history != [] {
      var lines := RenderTurns(Window(history));
      var h := HistoryContext(history);
      assert |lines[0]| >= 2;
      if |lines| > 1 {
        assert h == lines[0] + "\n" + Join(lines[1..], "\n");
      }
    }
  }

  /** Turns older than the last six have no influence on the prompt. */
  lemma HistoryIgnoresOlderTurns(older: seq<Turn>, recent: seq<Turn>)
    requires |recent| >= HistoryWindow
    ensures HistoryContext(older + recent) == HistoryContext(recent)
  {
    var all := older + recent;
    assert all[|all| - HistoryWindow..] == recent[|recent| - HistoryWindow..];
  }

  /** While the history is shorter than the window, a new turn adds one line at the end. */
  lemma HistoryGrowsByOneLine(history: seq<Turn>, t: Turn)
    requires 0 < |history| < HistoryWindow
    ensures HistoryContext(history + [t]) == HistoryContext(history) + "\n" + RenderTurn(t)
  {
    assert RenderTurns(history + [t]) == RenderTurns(history) + [RenderTurn(t)];
    JoinSnoc(RenderTurns(history), RenderTurn(t), "\n");
  }

  /** Each of the last six turns appears in the history block. */
  lemma HistoryShowsRecentTurn(history: seq<Turn>, i: int)
    requires 0 <= i < |history| && |history| - HistoryWindow <= i
    ensures Contains(HistoryContext(history), RenderTurn(history[i]))
  {
    var w := Window(history);
    var k := i - (|history| - |w|);
    assert w[k] == history[i];
    JoinContainsPart(RenderTurns(w), "\n", k);
  }

  // ---- Products hint ----

  const ProductsPrefix: string := "Known products in database: "

  /** `products_ctx`: omitted entirely when there are no products. */
  function ProductsHint(products: seq<string>): string
  {
    if products == [] then "" else ProductsPrefix + Join(products, ", ")
  }

  /** The hint is empty exactly when the product list is. */
  lemma ProductsHintEmpty(products: seq<string>)
    ensures ProductsHint(products) == "" <==> products == []
  {
  }

  /** Names are listed in list order: one more product adds `, name` at the end. */
  lemma ProductsHintInOrder(products: seq<string>, p: string)
    requires products != []
    ensures ProductsHint(products + [p]) == ProductsHint(products) + ", " + p
  {
    JoinSnoc(products, p, ", ");
  }

  /** Every known product is named in the hint. */
  lemma ProductsHintNamesEach(products: seq<string>, i: int)
    requires 0 <= i < |products|
    ensures StartsWith(ProductsHint(products), ProductsPrefix)
    ensures Contains(ProductsHint(products), products[i])
  {
    JoinContainsPart(products, ", ", i);
    ContainsWithin(ProductsPrefix, Join(products, ", "), "", products[i]);
    assert ProductsPrefix + Join(products, ", ") + "" == ProductsHint(products);
  }

  // ---- Time context ----

  const TimePrefix: string := "Current Date/Time in Kuwait (Asia/Kuwait, UTC+3): "

  /** `time_ctx` for the clock reading `utc`. */
  function TimeContext(utc: KuwaitClock.DateTime): (r: string)
    requires KuwaitClock.InRange(utc)
    ensures StartsWith(r, TimePrefix) && |r| == |TimePrefix| + 19
  {
    TimePrefix + KuwaitClock.KuwaitTime(utc)
  }

  /** After the prefix comes a 19-character stamp that reads back as the Kuwait
      wall-clock time of `utc`, three hours ahead of it. */
  lemma TimeContextStatesKuwaitTime(utc: KuwaitClock.DateTime)
    requires KuwaitClock.InRange(utc)
    ensures var stamp := TimeContext(utc)[|TimePrefix|..];
      KuwaitClock.IsTimestampShape(stamp) && KuwaitClock.Parse(stamp) == KuwaitClock.ToKuwait(utc)
      && KuwaitClock.SecondNumber(KuwaitClock.Parse(stamp)) == KuwaitClock.SecondNumber(utc) + KuwaitClock.OffsetHours * 3600
  {
    var stamp := KuwaitClock.KuwaitTime(utc);
    assert TimeContext(utc)[|TimePrefix|..] == stamp;
    KuwaitClock.KuwaitTimeReadsBack(utc);
    KuwaitClock.KuwaitIsThreeHoursAhead(utc);
  }

  // ---- The SQL prompt ----

  /** The fixed wording of the three prompts: the role statements, the few-shot
      examples, the rule lines of the SQL prompt (around the one that names the
      table) and the answer-style guidance. No decision of the service depends on
      what they say, so the prompt functions take them as a parameter and every
      property below holds for any wording; `SourceProse`, at the end of this
      module, is the wording the service sends, and the lemmas there state what
      it says. */
  datatype Prose = Prose(
    sqlIntro: string,
    exampleYesterdayQuestion: string, exampleYesterdayFilter: string,
    exampleTodayQuestion: string, exampleTodayFilter: string,
    rulesBeforeTable: seq<string>, tableRule: string, rulesAfterTable: seq<string>,
    answerIntro: string, answerRules: string,
    fallbackIntro: string)

  /** The prompt up to and including the `Schema:` heading. */
  function SqlPromptHead(prose: Prose, cfg: Config): string
  {
    prose.sqlIntro + cfg.projectId + "\nDataset ID: " + cfg.dataset + "\n\nSchema:\n"
  }

  const HistoryHeading: string := "\n\nConversation History:\n"

  /** The rule list, one line each: the line naming the one table that may be
      queried sits between the wording's other rules. */
  function SqlRules(prose: Prose, cfg: Config): (rules: seq<string>)
    ensures |rules| == |prose.rulesBeforeTable| + 1 + |prose.rulesAfterTable|
    ensures rules[|prose.rulesBeforeTable|] == prose.tableRule + FullTable(cfg) + "."
    ensures rules[..|prose.rulesBeforeTable|] == prose.rulesBeforeTable
    ensures rules[|prose.rulesBeforeTable| + 1..] == prose.rulesAfterTable
  {
    prose.rulesBeforeTable + [prose.tableRule + FullTable(cfg) + "."] + prose.rulesAfterTable
  }

  const QuestionHeading: string := "\n\nUser Question: \""

  /** The few-shot examples and the rules, between the history and the question. */
  function SqlPromptTail(prose: Prose, cfg: Config): string
  {
    prose.exampleYesterdayQuestion + FullTable(cfg) + prose.exampleYesterdayFilter
    + prose.exampleTodayQuestion + FullTable(cfg) + prose.exampleTodayFilter
    + "Rules:\n" + Join(SqlRules(prose, cfg), "\n") + QuestionHeading
  }

  /** The f-string of `generate_sql`: the fixed head and tail around the five
      interpolated parts. */
  function SqlTemplate(head: string, tail: string, question: string, schema: string, productsCtx: string,
                       timeCtx: string, historyCtx: string): string
  {
    head + schema + "\n\n" + productsCtx + "\n" + timeCtx + HistoryHeading + historyCtx + tail + question + "\"\n"
  }

  /** The template as its eleven pieces, in order. */
  lemma SqlTemplatePieces(head: string, tail: string, question: string, schema: string, productsCtx: string,
                          timeCtx: string, historyCtx: string)
    ensures SqlTemplate(head, tail, question, schema, productsCtx, timeCtx, historyCtx)
         == Concat([head, schema, "\n\n", productsCtx, "\n", timeCtx, HistoryHeading, historyCtx, tail, question, "\"\n"])
  {
    ConcatEleven(head, schema, "\n\n", productsCtx, "\n", timeCtx, HistoryHeading, historyCtx, tail, question, "\"\n");
  }

  function SqlPrompt(prose: Prose, cfg: Config, question: string, schema: string, productsCtx: string,
                     timeCtx: string, historyCtx: string): string
  {
    SqlTemplate(SqlPromptHead(prose, cfg), SqlPromptTail(prose, cfg), question, schema, productsCtx, timeCtx, historyCtx)
  }

  /** The prompt `generate_sql` sends for these inputs and clock reading. */
  function BuildSqlPrompt(prose: Prose, cfg: Config, question: string, schema: string, products: seq<string>,
                          history: seq<Turn>, utc: KuwaitClock.DateTime): string
    requires KuwaitClock.InRange(utc)
  {
    SqlPrompt(prose, cfg, question, schema, ProductsHint(products), TimeContext(utc), HistoryContext(history))
  }

  /** Schema, products hint, time, history and question are embedded verbatim and
      in that order, each at an offset fixed by the lengths of what precedes it. */
  lemma SqlTemplateOrder(head: string, tail: string, question: string, schema: string, productsCtx: string,
                         timeCtx: string, historyCtx: string)
    requires tail != []
    ensures var p := SqlTemplate(head, tail, question, schema, productsCtx, timeCtx, historyCtx);
      var a := |head|;
      var b := a + |schema| + 2;
      var c := b + |productsCtx| + 1;
      var d := c + |timeCtx| + |HistoryHeading|;
      var e := d + |historyCtx| + |tail|;
      a < b < c < d < e
      && OccursAt(p, schema, a) && OccursAt(p, productsCtx, b) && OccursAt(p, timeCtx, c)
      && OccursAt(p, historyCtx, d) && OccursAt(p, question, e)
      && |p| == e + |question| + 2
  {
    var ps := [head, schema, "\n\n", productsCtx, "\n", timeCtx, HistoryHeading, historyCtx, tail, question, "\"\n"];
    SqlTemplatePieces(head, tail, question, schema, productsCtx, timeCtx, historyCtx);
    assert ps[..0] == [];
    ConcatPrefixGrows(ps, 1);
    ConcatPrefixGrows(ps, 2);
    ConcatPrefixGrows(ps, 3);
    ConcatPrefixGrows(ps, 4);
    ConcatPrefixGrows(ps, 5);
    ConcatPrefixGrows(ps, 6);
    ConcatPrefixGrows(ps, 7);
    ConcatPrefixGrows(ps, 8);
    ConcatPrefixGrows(ps, 9);
    ConcatPrefixGrows(ps, 10);
    ConcatPrefixGrows(ps, 11);
    assert ps[..11] == ps;
    ConcatPieceAt(ps, 1);
    ConcatPieceAt(ps, 3);
    ConcatPieceAt(ps, 5);
    ConcatPieceAt(ps, 7);
    ConcatPieceAt(ps, 9);
  }

  /** Each rule line, including the single-table rule and the `unanswerable`
      rule, appears verbatim in every SQL prompt. */
  lemma SqlPromptStatesRules(prose: Prose, cfg: Config, question: string, schema: string, productsCtx: string,
                             timeCtx: string, historyCtx: string, i: int)
    requires 0 <= i < |SqlRules(prose, cfg)|
    ensures Contains(SqlPrompt(prose, cfg, question, schema, productsCtx, timeCtx, historyCtx), SqlRules(prose, cfg)[i])
  {
    var t := SqlPromptTail(prose, cfg);
    var ps := [SqlPromptHead(prose, cfg), schema, "\n\n", productsCtx, "\n", timeCtx, HistoryHeading, historyCtx,
               t, question, "\"\n"];
    var rules := Join(SqlRules(prose, cfg), "\n");
    JoinContainsPart(SqlRules(prose, cfg), "\n", i);
    var before := prose.exampleYesterdayQuestion + FullTable(cfg) + prose.exampleYesterdayFilter
      + prose.exampleTodayQuestion + FullTable(cfg) + prose.exampleTodayFilter + "Rules:\n";
    assert t == before + rules + QuestionHeading;
    ContainsWithin(before, rules, QuestionHeading, SqlRules(prose, cfg)[i]);
    SqlTemplatePieces(SqlPromptHead(prose, cfg), t, question, schema, productsCtx, timeCtx, historyCtx);
    ConcatPieceAt(ps, 8);
    OccursAtContains(Concat(ps), t, |Concat(ps[..8])|);
    ContainsTransitive(Concat(ps), t, SqlRules(prose, cfg)[i]);
  }

  // ---- Clean-up of the model's SQL output ----

  /** The text opens with a code fence: three back-quotes. */
  predicate OpensFence(s: string)
  {
    |s| >= 3 && s[0] == '`' && s[1] == '`' && s[2] == '`'
  }

  /** The text opens with a fence tagged `sql`. */
  predicate OpensSqlFence(s: string)
  {
    OpensFence(s) && |s| >= 6 && s[3] == 's' && s[4] == 'q' && s[5] == 'l'
  }

  /** The text ends with a code fence. */
  predicate ClosesFence(s: string)
  {
    |s| >= 3 && s[|s| - 3] == '`' && s[|s| - 2] == '`' && s[|s| - 1] == '`'
  }

  /** `re.sub(r"^```(?:sql)?\s*", "", s)`: one opening fence, its `sql` tag if
      present, and the whitespace after it. */
  function StripOpeningFence(s: string): string
  {
    if OpensSqlFence(s) then TrimStart(s[6..])
    else if OpensFence(s) then TrimStart(s[3..])
    else s
  }

  /** Removing the opening fence keeps a suffix that starts with no whitespace. */
  lemma OpeningFenceLeavesSuffix(s: string)
    ensures var r := StripOpeningFence(s);
      |r| <= |s| && r == s[|s| - |r|..] && (r != s ==> r == [] || !IsSpace(r[0]))
  {
    if OpensSqlFence(s) {
      TrimStartDropsLeadingSpace(s[6..]);
    } else if OpensFence(s) {
      TrimStartDropsLeadingSpace(s[3..]);
    }
  }

  /** `re.sub(r"\s*```$", "", s)`: one closing fence and the whitespace before it. */
  function StripClosingFence(s: string): string
  {
    if ClosesFence(s) then TrimEnd(s[..|s| - 3]) else s
  }

  /** Removing the closing fence keeps a prefix that ends with no whitespace. */
  lemma ClosingFenceLeavesPrefix(s: string)
    ensures var r := StripClosingFence(s);
      |r| <= |s| && r == s[..|r|] && (r != s ==> r == [] || !IsSpace(r[|r| - 1]))
  {
    if ClosesFence(s) {
      TrimEndDropsTrailingSpace(s[..|s| - 3]);
    }
  }

  /** Removing a prefix keeps a trimmed text trimmed, as long as what is left
      starts with no whitespace. */
  lemma SuffixStaysTrimmed(t: string, o: string)
    requires IsTrimmed(t) && |o| <= |t| && o == t[|t| - |o|..]
    requires o != t ==> o == [] || !IsSpace(o[0])
    ensures IsTrimmed(o)
  {
    if o != [] {
      assert o[|o| - 1] == t[|t| - 1];
      if o == t {
        assert o[0] == t[0];
      }
    }
  }

  lemma PrefixStaysTrimmed(o: string, c: string)
    requires IsTrimmed(o) && |c| <= |o| && c == o[..|c|]
    requires c != o ==> c == [] || !IsSpace(c[|c| - 1])
    ensures IsTrimmed(c)
  {
    if c != [] {
      assert c[0] == o[0];
    }
  }

  /** The SQL `generate_sql` returns for the model's raw text: trimmed, with at
      most one opening and one closing fence removed. */
  function CleanSql(raw: string): string
  {
    StripClosingFence(StripOpeningFence(Trim(raw)))
  }

  /** Clean-up only removes text: the result is a piece of the raw text, with no
      whitespace at either end. */
  lemma CleanSqlIsTrimmedPiece(raw: string)
    ensures IsTrimmed(CleanSql(raw))
    ensures Contains(raw, CleanSql(raw))
  {
    var t := Trim(raw);
    TrimIsTrimmedPiece(raw);
    UnfencedIsTrimmedPiece(t);
    ContainsTransitive(raw, t, CleanSql(raw));
  }

  /** Removing the fences from a stripped text keeps it stripped and only removes text. */
  lemma UnfencedIsTrimmedPiece(t: string)
    requires IsTrimmed(t)
    ensures IsTrimmed(StripClosingFence(StripOpeningFence(t)))
    ensures Contains(t, StripClosingFence(StripOpeningFence(t)))
  {
    var o := StripOpeningFence(t);
    var c := StripClosingFence(o);
    OpeningFenceLeavesSuffix(t);
    ClosingFenceLeavesPrefix(o);
    SuffixStaysTrimmed(t, o);
    PrefixStaysTrimmed(o, c);
    SuffixPrefixOccurs(t, o, c);
  }

  /** Output without fences comes back merely trimmed. */
  lemma CleanSqlWithoutFences(raw: string)
    requires !OpensFence(Trim(raw)) && !ClosesFence(Trim(raw))
    ensures CleanSql(raw) == Trim(raw)
  {
  }

  /** An opening fence, tagged or not, is removed together with the whitespace run
      `ws` after it. An untagged fence directly followed by `sql` is read as tagged,
      so that case is left to the tagged form. */
  lemma OpeningFenceRemoved(tag: string, ws: string, rest: string)
    requires tag == "sql" || tag == ""
    requires forall i :: 0 <= i < |ws| ==> IsSpace(ws[i])
    requires tag == "" && ws == [] ==> !StartsWith(rest, "sql")
    ensures StripOpeningFence("```" + tag + ws + rest) == TrimStart(rest)
  {
    var s := "```" + tag + ws + rest;
    assert OpensFence(s);
    if tag == "" {
      assert s[3..] == ws + rest;
      if ws != [] {
        assert s[3] == ws[0];
      } else if |rest| >= 3 {
        assert s[3..6] == rest[..3];
      }
      assert !OpensSqlFence(s);
    } else {
      assert OpensSqlFence(s);
      assert s[6..] == ws + rest;
    }
    TrimStartSkipsSpace(ws, rest);
  }

  /** A closing fence is removed together with the whitespace run `ws` before it,
      and nothing else goes but whitespace at the end of `body`. */
  lemma ClosingFenceRemoved(body: string, ws: string)
    requires forall i :: 0 <= i < |ws| ==> IsSpace(ws[i])
    ensures StripClosingFence(body + ws + "```") == TrimEnd(body)
  {
    var o := body + ws + "```";
    assert ClosesFence(o);
    assert o[..|o| - 3] == body + ws;
    TrimEndSkipsSpace(body, ws);
  }

  /** A fenced text has no whitespace at either end. */
  lemma FencedIsTrimmed(tag: string, rest: string)
    requires |rest| > 0 && rest[|rest| - 1] == '`'
    ensures IsTrimmed("```" + tag + "\n" + rest)
  {
    var s := "```" + tag + "\n" + rest;
    assert s[0] == '`';
    assert s[|s| - 1] == rest[|rest| - 1];
  }

  /** Fencing a query, with or without the `sql` tag, is undone by the clean-up. */
  lemma CleanSqlUnfences(body: string, tag: string)
    requires IsTrimmed(body)
    requires tag == "sql" || tag == ""
    ensures CleanSql("```" + tag + "\n" + (body + "\n```")) == body
  {
    if body == [] {
      EmptyFenceCleansToEmpty(tag);
    } else {
      FencedQueryCleansToQuery(body, tag);
    }
  }

  lemma FencedQueryCleansToQuery(body: string, tag: string)
    requires IsTrimmed(body) && body != []
    requires tag == "sql" || tag == ""
    ensures CleanSql("```" + tag + "\n" + (body + "\n```")) == body
  {
    var rest := body + "\n```";
    assert TrimStart(rest) == rest;
    assert rest == body + "\n" + "```";
    ClosingFenceRemoved(body, "\n");
    assert TrimEnd(body) == body;
    var s := "```" + tag + "\n" + rest;
    FencedIsTrimmed(tag, rest);
    TrimOfTrimmed(s);
    OpeningFenceRemoved(tag, "\n", rest);
  }

  /** An empty fenced block cleans to the empty text. */
  lemma EmptyFenceCleansToEmpty(tag: string)
    requires tag == "sql" || tag == ""
    ensures CleanSql("```" + tag + "\n" + ([] + "\n```")) == []
  {
    var fence := "```";
    var rest := "\n" + fence;
    assert [] + "\n```" == rest;
    TrimStartSkipsSpace("\n", fence);
    assert TrimStart(rest) == fence;
    assert StripClosingFence(fence) == [];
    var s := "```" + tag + "\n" + rest;
    FencedIsTrimmed(tag, rest);
    TrimOfTrimmed(s);
    OpeningFenceRemoved(tag, "\n", rest);
  }

  /** A fenced `SELECT 1` cleans to `SELECT 1`. */
  lemma CleanSqlExample()
    ensures CleanSql("```sql\nSELECT 1\n```") == "SELECT 1"
  {
    assert "```sql\nSELECT 1\n```" == "```" + "sql" + "\n" + ("SELECT 1" + "\n```");
    CleanSqlUnfences("SELECT 1", "sql");
  }

  /** `generate_sql`: prompt the model and clean up what it says. */
  function GenerateSql(model: Model, prose: Prose, cfg: Config, question: string, schema: string,
                       products: seq<string>, history: seq<Turn>, utc: KuwaitClock.DateTime): (r: Result<string>)
    requires KuwaitClock.InRange(utc)
    ensures r.Ok? <==> model(BuildSqlPrompt(prose, cfg, question, schema, products, history, utc)).Ok?
    ensures r.Ok? ==> r.value == CleanSql(model(BuildSqlPrompt(prose, cfg, question, schema, products, history, utc)).value)
    ensures r.Err? ==> r.msg == model(BuildSqlPrompt(prose, cfg, question, schema, products, history, utc)).msg
  {
    match model(BuildSqlPrompt(prose, cfg, question, schema, products, history, utc))
    case Ok(text) => Ok(CleanSql(text))
    case Err(e) => Err(e)
  }

  // ---- The answer prompt ----

  /** The f-string of `generate_answer`, given the serialised rows. */
  function AnswerPrompt(prose: Prose, question: string, sql: string, resultsJson: string): string
  {
    prose.answerIntro + question + "\"\nSQL Query: " + sql + "\nRaw Data: " + resultsJson + prose.answerRules
  }

  /** The prompt `generate_answer` sends: only the first 50 rows are serialised. */
  function BuildAnswerPrompt(prose: Prose, serialize: Serializer, question: string, sql: string, rows: seq<Row>): string
  {
    AnswerPrompt(prose, question, sql, serialize(CapRows(rows)))
  }

  /** Rows past the fiftieth never reach the model: appending rows to a result that
      already has fifty leaves the answer prompt unchanged. */
  lemma AnswerPromptIgnoresRowsPastCap(prose: Prose, serialize: Serializer, question: string, sql: string,
                                       rows: seq<Row>, more: seq<Row>)
    requires |rows| >= RowCap
    ensures BuildAnswerPrompt(prose, serialize, question, sql, rows + more)
         == BuildAnswerPrompt(prose, serialize, question, sql, rows)
  {
    assert (rows + more)[..RowCap] == rows[..RowCap];
  }

  /** Up to fifty rows, every row is serialised. */
  lemma AnswerPromptSeesShortResults(prose: Prose, serialize: Serializer, question: string, sql: string, rows: seq<Row>)
    requires |rows| <= RowCap
    ensures BuildAnswerPrompt(prose, serialize, question, sql, rows) == AnswerPrompt(prose, question, sql, serialize(rows))
  {
  }

  /** `generate_answer`: the model's answer, stripped. The history argument is unused. */
  function GenerateAnswer(model: Model, prose: Prose, serialize: Serializer, question: string, sql: string,
                          rows: seq<Row>, history: seq<Turn>): (r: Result<string>)
    ensures r.Ok? <==> model(BuildAnswerPrompt(prose, serialize, question, sql, rows)).Ok?
    ensures r.Ok? ==> r.value == Trim(model(BuildAnswerPrompt(prose, serialize, question, sql, rows)).value)
    ensures r.Err? ==> r.msg == model(BuildAnswerPrompt(prose, serialize, question, sql, rows)).msg
  {
    match model(BuildAnswerPrompt(prose, serialize, question, sql, rows))
    case Ok(text) => Ok(Trim(text))
    case Err(e) => Err(e)
  }

  // ---- The fallback prompt ----

  /** The f-string of `generate_fallback_answer`. It takes the history and ignores it. */
  function FallbackPrompt(prose: Prose, question: string, history: seq<Turn>): (p: string)
    ensures EndsWith(p, "User: " + question)
  {
    prose.fallbackIntro + "User: " + question
  }

  /** The fallback prompt does not depend on the conversation history. */
  lemma FallbackIgnoresHistory(prose: Prose, question: string, h1: seq<Turn>, h2: seq<Turn>)
    ensures FallbackPrompt(prose, question, h1) == FallbackPrompt(prose, question, h2)
  {
  }

  /** `generate_fallback_answer`: the model's reply to the fallback prompt, stripped. */
  function GenerateFallbackAnswer(model: Model, prose: Prose, question: string, history: seq<Turn>): (r: Result<string>)
    ensures r.Ok? <==> model(FallbackPrompt(prose, question, history)).Ok?
    ensures r.Ok? ==> r.value == Trim(model(FallbackPrompt(prose, question, history)).value)
    ensures r.Err? ==> r.msg == model(FallbackPrompt(prose, question, history)).msg
  {
    match model(FallbackPrompt(prose, question, history))
    case Ok(text) => Ok(Trim(text))
    case Err(e) => Err(e)
  }

  // ---- The wording the service sends ----

  const SqlIntro: string :=
    "You are a BigQuery SQL expert. Convert the user's natural language question into a standard SQL query.\n\n"
    + "Dataset Context:\nProject ID: "

  const ExampleYesterdayQuestion: string :=
    "\n\nFew-Shot Examples:\n1. User: \"What were the total sales yesterday?\"\n   Assistant: SELECT SUM(total_price) FROM "
  const ExampleYesterdayFilter: string :=
    " WHERE EXTRACT(DATE FROM sold_at AT TIME ZONE 'Asia/Kuwait') = DATE_SUB(CURRENT_DATE('Asia/Kuwait'), INTERVAL 1 DAY)\n\n"
  const ExampleTodayQuestion: string :=
    "2. User: \"Which location sold the most today?\"\n   Assistant: SELECT machine_name, SUM(total_price) as total FROM "
  const ExampleTodayFilter: string :=
    " WHERE EXTRACT(DATE FROM sold_at AT TIME ZONE 'Asia/Kuwait') = CURRENT_DATE('Asia/Kuwait') GROUP BY machine_name ORDER BY total DESC LIMIT 1\n\n"

  const AssistantIntro: string :=
    "You are Vendit Assistant \U{2014} a friendly colleague who helps with vending machine business analytics.\n\n"

  const AnswerIntro: string := AssistantIntro + AnswerOpening

  const AnswerOpening: string :=
    "Talk naturally like a real person having a conversation. Be warm, direct, and helpful \U{2014} not robotic.\n\n"
    + "User Question: \""

  const AnswerRules: string :=
    "\n\nRules:\n"
    + "- Talk like a human, not a report. Use casual but professional language.\n"
    + "  Good: \"Yesterday you guys did 245 KWD in sales \U{2014} pretty solid day!\"\n"
    + "  Bad: \"The total sales for the previous day amounted to 245.00 KWD.\"\n"
    + "- ALWAYS refer to machines by their NAME (location), never by ID numbers.\n"
    + "  Good: \"The Al Salmiya branch is your top performer\"\n"
    + "  Bad: \"Machine ID 47 has the highest sales\"\n"
    + "- Use KWD for all financial amounts.\n"
    + "- If there's an interesting insight or trend, mention it naturally.\n"
    + "- Keep it conversational and concise \U{2014} no bullet points or tables unless the data really needs it.\n"
    + "- If results are empty, just say so casually and suggest what they could ask instead.\n"
    + "- Don't mention SQL or technical details."

  const FallbackIntro: string := AssistantIntro + FallbackOpening

  const FallbackOpening: string :=
    "Talk like a real person. Be warm and casual but professional.\n\n"
    + "You can help with:\n"
    + "- Sales numbers (revenue, transactions, daily/weekly/monthly trends)\n"
    + "- Machine performance (which locations are doing well, which need attention)\n"
    + "- Product insights (best sellers, what's moving where)\n\n"
    + "If someone says hi, just be friendly and let them know what you can help with. Keep it short and natural.\n\n"

  const RuleCurrency: string := "- Return all price, amount, and revenue related values in KWD (Kuwaiti Dinar)."
  const RuleClock: string := "- Use the provided Current Date/Time in Kuwait for relative date queries."
  const RuleBareSql: string := "- Return ONLY the SQL query. No markdown, no backticks, no explanation."
  const RuleOneTable: string := "- You MUST query ONLY the table "
  const RuleMachineName: string :=
    "- IMPORTANT: Always use machine_name (not machine_id) when selecting or displaying machine/location data."
    + " Users refer to machines by their name/location, never by ID."
  const RuleGroupBy: string := "- When grouping by machine, always GROUP BY machine_name."
  const RuleUnanswerable: string := "- If the question cannot be answered with the schema, return \"unanswerable\"."

  const SourceProse: Prose := Prose(
    SqlIntro,
    ExampleYesterdayQuestion, ExampleYesterdayFilter,
    ExampleTodayQuestion, ExampleTodayFilter,
    [RuleCurrency, RuleClock, RuleBareSql], RuleOneTable, [RuleMachineName, RuleGroupBy, RuleUnanswerable],
    AnswerIntro, AnswerRules,
    FallbackIntro)

  /** The service's SQL prompt has seven rule lines: the fourth confines the query
      to the configured table and the last asks for `unanswerable` when the schema
      cannot answer the question. */
  lemma SourceRules(cfg: Config)
    ensures var rules := SqlRules(SourceProse, cfg);
      |rules| == 7
      && rules[3] == RuleOneTable + FullTable(cfg) + "."
      && rules[6] == RuleUnanswerable
      && Contains(rules[3], FullTable(cfg))
  {
    var line := RuleOneTable + FullTable(cfg) + ".";
    ContainsWithin(RuleOneTable, FullTable(cfg), ".", FullTable(cfg)) by {
      OccursAtContains(FullTable(cfg), FullTable(cfg), 0);
    }
  }

}
