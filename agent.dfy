/**
 * `answer_question`: a blank question gets a fixed prompt; otherwise the
 * question is translated, the SQL executed against the store and the rows
 * formatted, and an exception on the way becomes one of two reply texts,
 * chosen by whether it is a `ValueError`.
 */
module Agent {
  import opened Strings
  import opened Runtime
  import opened QueryGate
  import opened Translator
  import opened Formatter

  const BlankPrompt := "Please ask a specific question about leads."
  const QueryErrorPrefix := "Query error: "
  const NoDataPrefix := "I don't have enough data to answer this. Error: "

  /** `not question or not question.strip()` */
  predicate IsBlank(question: string) {
    Strip(question) == []
  }

  /** The two `except` clauses: `ValueError` first, then any other exception. */
  function ErrorReply(e: Exception): (reply: string)
    ensures e.ValueError? ==> StartsWith(reply, QueryErrorPrefix) && reply[|QueryErrorPrefix|..] == e.msg
    ensures !e.ValueError? ==> StartsWith(reply, NoDataPrefix) && reply[|NoDataPrefix|..] == e.Message()
  {
    if e.ValueError? then QueryErrorPrefix + e.msg else NoDataPrefix + e.Message()
  }

  /** Executing the SQL and formatting its rows, with the exception handling. */
  function Respond(sql: string, store: Store, floats: Floats): string {
    match Execute(sql, store)
    case Failure(e) => ErrorReply(e)
    case Success(rows) =>
      match Format(rows, floats)
      case Failure(e) => ErrorReply(e)
      case Success(text) => text
  }

  /** `answer_question(question)` for a given store and float rendering. */
  function Answer(question: string, store: Store, floats: Floats): string {
    if IsBlank(question) then BlankPrompt else Respond(Translate(question), store, floats)
  }

  /** The orchestration of the three steps, each by its own method. */
  method AnswerQuestion(question: string, store: Store, floats: Floats) returns (reply: string)
    ensures reply == Answer(question, store, floats)
  {
    if IsBlank(question) {
      return BlankPrompt;
    }
    var sql := TranslateQuestion(question);
    var results := ExecuteQuery(sql, store);
    if results.Failure? {
      return ErrorReply(results.error);
    }
    var response := FormatResponse(results.value, floats);
    if response.Failure? {
      return ErrorReply(response.error);
    }
    return response.value;
  }

  // ----- properties -----

  /** A blank question is answered with the prompt whatever the store holds: nothing is executed. */
  lemma BlankQuestionIgnoresStore(question: string, store1: Store, store2: Store, floats: Floats)
    requires IsBlank(question)
    ensures Answer(question, store1, floats) == BlankPrompt == Answer(question, store2, floats)
  {
  }

  /** Blank means empty or made of whitespace only. */
  lemma BlankMeansWhitespace(question: string)
    ensures IsBlank(question) <==> forall k :: 0 <= k < |question| ==> IsSpace(question[k])
  {
  }

  /**
   * A question whose SQL the gate rejects is answered without the store,
   * with `Query error:` and the gate's message.
   */
  lemma RejectedQuestion(question: string, sql: string, store: Store, floats: Floats)
    requires !IsBlank(question) && sql == Translate(question) && Gate(sql).Fail?
    ensures Answer(question, store, floats) == QueryErrorPrefix + Gate(sql).error.msg
  {
    RejectedSql(sql, store, floats);
  }

  /**
   * A company whose name is a forbidden keyword is refused by the gate: the
   * company filter puts `insert` between `%` marks, where `\bINSERT\b` finds it.
   */
  lemma CompanyNamedInsert(store: Store, floats: Floats)
    ensures Answer("Leads from insert", store, floats) == QueryErrorPrefix + (ForbiddenPrefix + PatternText(Keyword("INSERT")))
  {
    var question := "Leads from insert";
    var sql := Translate(question);
    InsertGate(sql);
    assert question[0] == 'L';
    assert !IsBlank(question);
    RejectedQuestion(question, sql, store, floats);
  }

  /** The gate's verdict on the statement built for "Leads from insert". */
  lemma InsertGate(sql: string)
    requires sql == Translate("Leads from insert")
    ensures Gate(sql) == Fail(ValueError(ForbiddenPrefix + PatternText(Keyword("INSERT"))))
  {
    LeadsFromInsertExample();
    CompanyFilterShape(BaseSelect, "insert");
    BaseSelectHead();
    var rest := " " + Join("", BaseSelectLines[1..]);
    AfterSelect("\n        ", rest, WhereKeyword + CompanyLike("insert"), OrderClause);
    UpperInsert();
    var ws := "\n        ";
    var tail := rest + (WhereKeyword + CompanyLike("insert")) + OrderClause;
    var pre := BaseSelect + (WhereKeyword + "l.company LIKE '%");
    var post := "%'" + OrderClause;
    IndentIsSpace(ws);
    FirstKeywordRefused(sql, ws, tail, pre, "insert", post);
  }

  lemma IndentIsSpace(ws: string)
    requires ws == "\n        "
    ensures forall j :: 0 <= j < |ws| ==> IsSpace(ws[j])
  {
    forall j | 0 <= j < |ws|
      ensures IsSpace(ws[j])
    {
      assert ws[j] == '\n' || ws[j] == ' ';
    }
  }

  lemma UpperInsert()
    ensures Upper("insert") == "INSERT"
  {
  }

  /** The company filter sets the company between two `%` marks. */
  lemma CompanyFilterShape(base: string, company: string)
    ensures base + (WhereKeyword + CompanyLike(company)) + OrderClause ==
      (base + (WhereKeyword + "l.company LIKE '%")) + company + ("%'" + OrderClause)
    ensures var pre := base + (WhereKeyword + "l.company LIKE '%"); pre != [] && IsMark(pre[|pre| - 1])
    ensures IsMark(("%'" + OrderClause)[0])
  {
    var pre := base + (WhereKeyword + "l.company LIKE '%");
    assert pre[|pre| - 1] == "l.company LIKE '%"[16];
  }

  lemma AfterSelect(ws: string, rest: string, x: string, y: string)
    ensures ws + "SELECT" + rest + x + y == ws + "SELECT" + (rest + x + y)
  {
  }

  lemma RejectedSql(sql: string, store: Store, floats: Floats)
    requires Gate(sql).Fail?
    ensures Respond(sql, store, floats) == QueryErrorPrefix + Gate(sql).error.msg
  {
    assert Gate(sql).error.ValueError?;
  }

  /** A storage failure reaches the user behind the generic envelope. */
  lemma StoreFailureReply(question: string, sql: string, store: Store, floats: Floats, message: string)
    requires !IsBlank(question) && sql == Translate(question) && Gate(sql).Pass?
    requires store(sql) == StoreFailure(message)
    ensures Answer(question, store, floats) == NoDataPrefix + DatabaseErrorPrefix + message
  {
    StoreFailureSql(sql, store, floats, message);
  }

  lemma StoreFailureSql(sql: string, store: Store, floats: Floats, message: string)
    requires Gate(sql).Pass? && store(sql) == StoreFailure(message)
    ensures Respond(sql, store, floats) == NoDataPrefix + DatabaseErrorPrefix + message
  {
    assert Execute(sql, store) == Failure(Error(DatabaseErrorPrefix + message));
  }

  /** On success the reply is the formatted text; there are no matches exactly when there are no rows. */
  lemma SuccessfulReply(question: string, store: Store, floats: Floats)
    requires !IsBlank(question) && Execute(Translate(question), store).Success?
    requires Format(Execute(Translate(question), store).value, floats).Success?
    ensures Answer(question, store, floats) == Format(Execute(Translate(question), store).value, floats).value
    ensures Answer(question, store, floats) == NoMatches <==> Execute(Translate(question), store).value == []
  {
    var rows := Execute(Translate(question), store).value;
    if rows != [] {
      NotNoMatches(rows, floats);
    }
  }

  /** A non-empty result never reads as "No matching leads found.". */
  lemma NotNoMatches(rows: seq<Row>, floats: Floats)
    requires rows != [] && Format(rows, floats).Success?
    ensures Format(rows, floats).value != NoMatches
  {
    var text := Format(rows, floats).value;
    assert NoMatches[0] == 'N';
    if IsCountReply(rows) {
      assert text[0] == 'F';
    } else {
      var lines := [TableHeading(|rows|), ColumnLine, RuleLine()] + LeadLines(rows, floats).value;
      assert text == lines[0] + "\n" + Join("\n", lines[1..]);
      assert text[0] == 'F';
    }
  }

  /** The error of the first failing lead line is the error of the whole table. */
  lemma FirstFailingLead(rows: seq<Row>, floats: Floats, k: nat)
    requires k < |rows| && !IsCountReply(rows) && LeadLine(rows[k], floats).Failure?
    requires forall j :: 0 <= j < k ==> LeadLine(rows[j], floats).Success?
    ensures Format(rows, floats) == Failure(LeadLine(rows[k], floats).error)
  {
    LeadLinesSuccess(rows, floats);
    LeadLinesFailure(rows, floats);
    var i :| 0 <= i < |rows| && LeadLine(rows[i], floats) == Failure(LeadLines(rows, floats).error) &&
      (forall j :: 0 <= j < i ==> LeadLine(rows[j], floats).Success?);
    assert i == k;
  }

  /**
   * A lead without a score row (the left join yields `NULL`) makes a
   * table reply fail with the generic envelope.
   */
  lemma UnscoredLeadFails(sql: string, store: Store, floats: Floats, k: nat)
    requires Execute(sql, store).Success?
    requires var rows := Execute(sql, store).value;
      && k < |rows| && !IsCountReply(rows)
      && (forall j :: 0 <= j < k ==> LeadLine(rows[j], floats).Success?)
      && Get(rows[k], "score", Text(NotAvailable)) == Null
    ensures Respond(sql, store, floats) == NoDataPrefix + "unsupported format string passed to NoneType.__format__"
  {
    var rows := Execute(sql, store).value;
    var e := TypeError("unsupported format string passed to NoneType.__format__");
    FirstFailingLead(rows, floats, k);
    assert LeadLine(rows[k], floats) == Failure(e);
    FormatFailureReply(sql, store, floats, e);
  }

  /** A formatter failure is reported through the agent's exception handling. */
  lemma FormatFailureReply(sql: string, store: Store, floats: Floats, e: Exception)
    requires Execute(sql, store).Success? && Format(Execute(sql, store).value, floats) == Failure(e)
    ensures Respond(sql, store, floats) == ErrorReply(e)
  {
  }

  /**
   * A text score other than `N/A` fails inside the formatter with a
   * `ValueError`, which the agent reports as a query error.
   */
  lemma TextScoreIsQueryError(sql: string, store: Store, floats: Floats, k: nat)
    requires Execute(sql, store).Success?
    requires var rows := Execute(sql, store).value;
      && k < |rows| && !IsCountReply(rows)
      && (forall j :: 0 <= j < k ==> LeadLine(rows[j], floats).Success?)
      && Get(rows[k], "score", Text(NotAvailable)).Text?
      && Get(rows[k], "score", Text(NotAvailable)) != Text(NotAvailable)
    ensures Respond(sql, store, floats) == QueryErrorPrefix + "Unknown format code 'f' for object of type 'str'"
  {
    var rows := Execute(sql, store).value;
    FirstFailingLead(rows, floats, k);
  }
}
