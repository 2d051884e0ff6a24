/**
 * `LeadQueryAgent.execute_query`: the read-only gate that every statement
 * passes before a connection is opened, and the execution that turns the
 * store's answer into a list of row dictionaries.
 *
 * The gate upper-cases and strips the statement, insists that it starts with
 * `SELECT`, and then searches it for eight forbidden patterns in a fixed
 * order. A pattern is a whole-word keyword (`\bINSERT\b`) or two words with
 * whitespace between them (`\bCREATE\s+TABLE\b`); the search below is the
 * meaning of those two regular-expression shapes written out directly.
 */
module QueryGate {
  import opened Strings
  import opened Runtime

  datatype Pattern = Keyword(word: string) | Phrase(first: string, second: string)

  /** The pattern's source text, as the error message quotes it. */
  function PatternText(p: Pattern): string {
    match p
    case Keyword(w) => "\\b" + w + "\\b"
    case Phrase(a, b) => "\\b" + a + "\\s+" + b + "\\b"
  }

  /** The forbidden patterns, in the order they are tried. */
  const DangerousPatterns: seq<Pattern> := [
    Keyword("INSERT"), Keyword("UPDATE"), Keyword("DELETE"),
    Keyword("DROP"), Keyword("ALTER"), Phrase("CREATE", "TABLE"),
    Phrase("CREATE", "INDEX"), Phrase("CREATE", "VIEW")
  ]

  const OnlySelect := "Only SELECT queries are allowed"
  const ForbiddenPrefix := "Query contains forbidden pattern: "
  const DatabaseErrorPrefix := "Database error: "

  /** `s[i]` exists and is a `\w` character. */
  predicate WordAt(s: string, i: int) {
    0 <= i < |s| && IsWordChar(s[i])
  }

  /** `\b` at position `i`: a word character on exactly one side. */
  predicate Boundary(s: string, i: int) {
    WordAt(s, i - 1) != WordAt(s, i)
  }

  /** `s[a..b]` is a run of whitespace. */
  predicate SpaceRun(s: string, a: int, b: int) {
    0 <= a <= b <= |s| && forall k :: a <= k < b ==> IsSpace(s[k])
  }

  /** The pattern matches `s` starting at index `i`. */
  predicate MatchesAt(p: Pattern, s: string, i: int) {
    match p
    case Keyword(w) => OccursAt(s, w, i) && Boundary(s, i) && Boundary(s, i + |w|)
    case Phrase(a, b) =>
      && OccursAt(s, a, i) && Boundary(s, i)
      && exists j :: i < j <= |s| && SecondWordAt(s, i, a, b, j)
  }

  /** After `a` at `i`: `\s+` up to `j`, then the whole word `b` ending at a boundary. */
  predicate SecondWordAt(s: string, i: int, a: string, b: string, j: int) {
    i + |a| < j <= |s| && SpaceRun(s, i + |a|, j) && OccursAt(s, b, j) && Boundary(s, j + |b|)
  }

  /** `re.search(pattern, s) is not None` */
  predicate Search(p: Pattern, s: string) {
    exists i :: 0 <= i <= |s| && MatchesAt(p, s, i)
  }

  /** `sql.upper().strip()` */
  function Normalize(sql: string): string {
    Strip(Upper(sql))
  }

  /** The index of the first forbidden pattern at or after `k` that `u` matches, or `|DangerousPatterns|`. */
  function FirstMatchFrom(u: string, k: nat): (r: nat)
    requires k <= |DangerousPatterns|
    ensures k <= r <= |DangerousPatterns|
    ensures forall j :: k <= j < r ==> !Search(DangerousPatterns[j], u)
    ensures r < |DangerousPatterns| ==> Search(DangerousPatterns[r], u)
    decreases |DangerousPatterns| - k
  {
    if k == |DangerousPatterns| then k
    else if Search(DangerousPatterns[k], u) then k
    else FirstMatchFrom(u, k + 1)
  }

  /** The verdict on an already normalized statement `u`. */
  function Screen(u: string): (r: Outcome)
    ensures r.Fail? ==> r.error.ValueError?
    ensures r.Pass? <==> StartsWith(u, "SELECT") && forall k :: 0 <= k < |DangerousPatterns| ==> !Search(DangerousPatterns[k], u)
    ensures !StartsWith(u, "SELECT") ==> r == Fail(ValueError(OnlySelect))
    ensures forall k :: (0 <= k < |DangerousPatterns| && StartsWith(u, "SELECT") && Search(DangerousPatterns[k], u)
                         && forall j :: 0 <= j < k ==> !Search(DangerousPatterns[j], u)) ==>
      r == Fail(ValueError(ForbiddenPrefix + PatternText(DangerousPatterns[k])))
  {
    if !StartsWith(u, "SELECT") then Fail(ValueError(OnlySelect))
    else
      var k := FirstMatchFrom(u, 0);
      if k < |DangerousPatterns| then Fail(ValueError(ForbiddenPrefix + PatternText(DangerousPatterns[k])))
      else Pass
  }

  /**
   * The verdict of the gate. A statement passes exactly when its normalized
   * form starts with `SELECT` and matches none of the patterns; one that
   * does not start with `SELECT` fails with the fixed message; one that
   * matches fails naming the first pattern, in list order, that it matches.
   */
  function Gate(sql: string): (r: Outcome)
    ensures r.Fail? ==> r.error.ValueError?
    ensures var u := Normalize(sql);
      r.Pass? <==> StartsWith(u, "SELECT") && forall k :: 0 <= k < |DangerousPatterns| ==> !Search(DangerousPatterns[k], u)
    ensures !StartsWith(Normalize(sql), "SELECT") ==> r == Fail(ValueError(OnlySelect))
    ensures var u := Normalize(sql);
      forall k :: (0 <= k < |DangerousPatterns| && StartsWith(u, "SELECT") && Search(DangerousPatterns[k], u)
                   && forall j :: 0 <= j < k ==> !Search(DangerousPatterns[j], u)) ==>
        r == Fail(ValueError(ForbiddenPrefix + PatternText(DangerousPatterns[k])))
  {
    Screen(Normalize(sql))
  }

  /** What the store answers for a statement: column names and rows, or a failure message. */
  datatype StoreReply = Table(columns: seq<string>, rows: seq<seq<Value>>) | StoreFailure(message: string)

  /** The lead store, as an oracle from statement text to reply. */
  type Store = string -> StoreReply

  /** How many pairs `zip` produces: the length of the shorter list. */
  function ZipLength(columns: seq<string>, values: seq<Value>): nat {
    if |columns| < |values| then |columns| else |values|
  }

  /** `dict(zip(columns, values))`: pairs in order, a later duplicate name overwriting an earlier one. */
  function ZipRow(columns: seq<string>, values: seq<Value>): Row
    decreases |columns|
  {
    var n := ZipLength(columns, values);
    if n == 0 then map[]
    else ZipRow(columns[..n - 1], values[..n - 1])[columns[n - 1] := values[n - 1]]
  }

  /** The keys of a zipped row are exactly the names of the zipped columns. */
  lemma {:induction false} ZipRowKeys(columns: seq<string>, values: seq<Value>, key: string)
    ensures key in ZipRow(columns, values) <==> exists j :: 0 <= j < ZipLength(columns, values) && columns[j] == key
    decreases |columns|
  {
    var n := ZipLength(columns, values);
    if n > 0 {
      var c, v := columns[..n - 1], values[..n - 1];
      ZipRowKeys(c, v, key);
      assert ZipLength(c, v) == n - 1;
      if exists j :: 0 <= j < n - 1 && c[j] == key {
        var j :| 0 <= j < n - 1 && c[j] == key;
        assert columns[j] == key;
      }
    }
  }

  /** A name maps to the value of its last occurrence among the zipped columns. */
  lemma {:induction false} ZipRowLastWins(columns: seq<string>, values: seq<Value>, j: nat)
    requires j < ZipLength(columns, values)
    requires forall m :: j < m < ZipLength(columns, values) ==> columns[m] != columns[j]
    ensures columns[j] in ZipRow(columns, values) && ZipRow(columns, values)[columns[j]] == values[j]
    decreases |columns|
  {
    var n := ZipLength(columns, values);
    if j < n - 1 {
      var c, v := columns[..n - 1], values[..n - 1];
      assert ZipLength(c, v) == n - 1;
      ZipRowLastWins(c, v, j);
    }
  }

  /** The rows the agent hands on, one dictionary per row of the store's table. */
  function Rows(columns: seq<string>, rows: seq<seq<Value>>): (r: seq<Row>)
    ensures |r| == |rows|
  {
    seq(|rows|, i requires 0 <= i < |rows| => ZipRow(columns, rows[i]))
  }

  /** The meaning of `execute_query(sql)`: the gate, then one call to the store. */
  function Execute(sql: string, store: Store): Result<seq<Row>>
  {
    match Gate(sql)
    case Fail(e) => Failure(e)
    case Pass =>
      match store(sql)
      case StoreFailure(m) => Failure(Error(DatabaseErrorPrefix + m))
      case Table(columns, rows) => Success(Rows(columns, rows))
  }

  /** A rejected statement never reaches the store: the result is the same whatever the store holds. */
  lemma RejectedNeverReachesStore(sql: string, store1: Store, store2: Store)
    requires Gate(sql).Fail?
    ensures Execute(sql, store1) == Execute(sql, store2) == Failure(Gate(sql).error)
  {
  }

  /** The check at the head of `execute_query`: the `SELECT` test, then the pattern loop with its early raise. */
  method CheckQuery(sql: string) returns (r: Outcome)
    ensures r == Gate(sql)
  {
    var u := Normalize(sql);
    if !StartsWith(u, "SELECT") {
      return Fail(ValueError(OnlySelect));
    }
    for k := 0 to |DangerousPatterns|
      invariant FirstMatchFrom(u, k) == FirstMatchFrom(u, 0)
    {
      if Search(DangerousPatterns[k], u) {
        return Fail(ValueError(ForbiddenPrefix + PatternText(DangerousPatterns[k])));
      }
    }
    return Pass;
  }

  /** The row-building loop of `execute_query`: one zipped dictionary per row. */
  method BuildRows(columns: seq<string>, rows: seq<seq<Value>>) returns (results: seq<Row>)
    ensures results == Rows(columns, rows)
  {
    results := [];
    for i := 0 to |rows|
      invariant results == Rows(columns, rows[..i])
    {
      results := results + [ZipRow(columns, rows[i])];
    }
    assert rows[..|rows|] == rows;
  }

  /** `execute_query`: the check, one call to the store, then the rows. */
  method ExecuteQuery(sql: string, store: Store) returns (r: Result<seq<Row>>)
    ensures r == Execute(sql, store)
  {
    var verdict := CheckQuery(sql);
    if verdict.Fail? {
      return Failure(verdict.error);
    }
    match store(sql) {
      case StoreFailure(m) =>
        return Failure(Error(DatabaseErrorPrefix + m));
      case Table(columns, rows) =>
        var results := BuildRows(columns, rows);
        return Success(results);
    }
  }

  // ----- whole-word reasoning -----

  /** Every character of a keyword or phrase word is a `\w` character. */
  predicate AllWordChars(w: string) {
    forall k :: 0 <= k < |w| ==> IsWordChar(w[k])
  }

  /** A keyword match that ends at or before a non-word character at `e` is a match in `s[..e]` too. */
  lemma KeywordInPrefix(w: string, s: string, i: int, e: int)
    requires w != [] && MatchesAt(Keyword(w), s, i) && i + |w| <= e <= |s|
    requires e < |s| ==> !IsWordChar(s[e])
    ensures MatchesAt(Keyword(w), s[..e], i)
  {
    assert s[..e][i..i + |w|] == s[i..i + |w|];
    assert WordAt(s[..e], i - 1) == WordAt(s, i - 1);
    assert WordAt(s[..e], i) == WordAt(s, i);
    assert WordAt(s[..e], i + |w| - 1) == WordAt(s, i + |w| - 1);
    assert WordAt(s[..e], i + |w|) == WordAt(s, i + |w|);
  }

  /** A keyword match that starts at or after a non-word character at `b - 1` is a match in `s[b..]` too. */
  lemma KeywordInSuffix(w: string, s: string, i: int, b: int)
    requires w != [] && MatchesAt(Keyword(w), s, i) && 0 <= b <= i
    requires b > 0 ==> !IsWordChar(s[b - 1])
    ensures MatchesAt(Keyword(w), s[b..], i - b)
  {
    var t := s[b..];
    assert t[i - b..i - b + |w|] == s[i..i + |w|];
    WordAtShift(s, b, i - b - 1);
    WordAtShift(s, b, i - b);
    WordAtShift(s, b, i - b + |w|);
  }

  lemma WordAtShift(s: string, b: int, k: int)
    requires 0 <= b <= |s| && k >= -1 && (k == -1 && b > 0 ==> !IsWordChar(s[b - 1]))
    ensures WordAt(s[b..], k) == WordAt(s, k + b)
  {
    if 0 <= k < |s| - b {
      assert s[b..][k] == s[k + b];
    }
  }

  /**
   * A whole-word match never spans a non-word character: a keyword found in
   * `a + [c] + b` is found in `a` or in `b`.
   */
  lemma KeywordAroundSeparator(w: string, a: string, c: char, b: string)
    requires w != [] && AllWordChars(w) && !IsWordChar(c)
    requires Search(Keyword(w), a + [c] + b)
    ensures Search(Keyword(w), a) || Search(Keyword(w), b)
  {
    var s := a + [c] + b;
    var i :| 0 <= i <= |s| && MatchesAt(Keyword(w), s, i);
    assert s[|a|] == c;
    forall k | i <= k < i + |w|
      ensures IsWordChar(s[k])
    {
      assert s[k] == s[i..i + |w|][k - i];
    }
    if i + |w| <= |a| {
      KeywordInPrefix(w, s, i, |a|);
      assert s[..|a|] == a;
    } else {
      KeywordInSuffix(w, s, i, |a| + 1);
      assert s[|a| + 1..] == b;
      assert MatchesAt(Keyword(w), b, i - |a| - 1);
    }
  }

  /** A character that is neither `\w` nor whitespace: a `\b` beside it that stripping cannot remove. */
  predicate IsMark(c: char) {
    !IsWordChar(c) && !IsSpace(c)
  }

  /**
   * A word whose upper-case form is the keyword `w`, set between two marks,
   * is still a whole-word match of `w` after the gate's normalization.
   */
  lemma KeywordSurvivesNormalize(pre: string, x: string, post: string, w: string)
    requires Upper(x) == w && w != [] && AllWordChars(w)
    requires pre != [] && IsMark(pre[|pre| - 1]) && post != [] && IsMark(post[0])
    ensures Search(Keyword(w), Normalize(pre + x + post))
  {
    UpperAppend(pre + x, post);
    UpperAppend(pre, x);
    var s := Upper(pre) + w + Upper(post);
    var m := |pre|;
    assert s[m - 1] == Upper(pre)[m - 1] == UpperChar(pre[m - 1]);
    assert s[m + |w|] == Upper(post)[0] == UpperChar(post[0]);
    assert s[m..m + |w|] == w;
    KeywordSurvivesStrip(s, m, w);
  }

  /** A keyword at `m` with a mark on each side is a whole-word match after stripping. */
  lemma KeywordSurvivesStrip(s: string, m: int, w: string)
    requires w != [] && AllWordChars(w) && 1 <= m && OccursAt(s, w, m) && m + |w| < |s|
    requires IsMark(s[m - 1]) && IsMark(s[m + |w|])
    ensures Search(Keyword(w), Strip(s))
  {
    assert s[m] == s[m..m + |w|][0] == w[0];
    assert s[m + |w| - 1] == s[m..m + |w|][|w| - 1] == w[|w| - 1];
    assert WordAt(s, m) && WordAt(s, m + |w| - 1);
    assert MatchesAt(Keyword(w), s, m);
    var a := SpanStart(s);
    var b := SpanEnd(s);
    assert a <= m - 1 && b >= m + |w| + 1;
    if b < |s| {
      SpaceIsNotWord(s[b]);
    }
    KeywordInPrefix(w, s, m, b);
    if a > 0 {
      SpaceIsNotWord(s[a - 1]);
      assert s[..b][a - 1] == s[a - 1];
    }
    KeywordInSuffix(w, s[..b], m, a);
    assert s[..b][a..] == Strip(s);
  }

  /** A statement made of whitespace, `SELECT` and anything else still starts with `SELECT` once normalized. */
  lemma SelectSurvivesNormalize(ws: string, rest: string)
    requires forall j :: 0 <= j < |ws| ==> IsSpace(ws[j])
    ensures StartsWith(Normalize(ws + "SELECT" + rest), "SELECT")
  {
    UpperAppend(ws + "SELECT", rest);
    UpperAppend(ws, "SELECT");
    assert Upper(ws) == ws;
    assert Upper("SELECT") == "SELECT";
    StripKeepsPrefix(ws, "SELECT", Upper(rest));
  }

  /**
   * A `SELECT` statement holding a word that upper-cases to `INSERT` between
   * two marks fails naming the first pattern of the list.
   */
  lemma FirstKeywordRefused(sql: string, ws: string, rest: string, pre: string, x: string, post: string)
    requires sql == ws + "SELECT" + rest && forall j :: 0 <= j < |ws| ==> IsSpace(ws[j])
    requires sql == pre + x + post && Upper(x) == "INSERT"
    requires pre != [] && IsMark(pre[|pre| - 1]) && post != [] && IsMark(post[0])
    ensures Gate(sql) == Fail(ValueError(ForbiddenPrefix + PatternText(Keyword("INSERT"))))
  {
    AnchorsAreWords();
    assert Anchor(DangerousPatterns[0]) == "INSERT";
    KeywordSurvivesNormalize(pre, x, post, "INSERT");
    SelectSurvivesNormalize(ws, rest);
    FirstPatternRefused(Normalize(sql));
  }

  lemma FirstPatternRefused(u: string)
    requires StartsWith(u, "SELECT") && Search(Keyword("INSERT"), u)
    ensures Screen(u) == Fail(ValueError(ForbiddenPrefix + PatternText(Keyword("INSERT"))))
  {
    assert DangerousPatterns[0] == Keyword("INSERT");
  }

  /** Inside a single run of word characters the only whole word is the run itself. */
  lemma KeywordInWord(w: string, x: string)
    requires w != [] && AllWordChars(x)
    requires Search(Keyword(w), x)
    ensures x == w
  {
    var i :| 0 <= i <= |x| && MatchesAt(Keyword(w), x, i);
    assert WordAt(x, i);
    assert WordAt(x, i + |w| - 1);
    assert x[i..i + |w|] == w;
  }

  /** A phrase match contains a whole-word match of its second word. */
  lemma PhraseNeedsSecondWord(a: string, b: string, s: string)
    requires b != [] && IsWordChar(b[0])
    requires Search(Phrase(a, b), s)
    ensures Search(Keyword(b), s)
  {
    var i :| 0 <= i <= |s| && MatchesAt(Phrase(a, b), s, i);
    var j :| i < j <= |s| && SecondWordAt(s, i, a, b, j);
    SpaceIsNotWord(s[j - 1]);
    assert s[j] == b[0];
    assert MatchesAt(Keyword(b), s, j);
  }

  /** The word a pattern cannot match without: the keyword, or a phrase's second word. */
  function Anchor(p: Pattern): string {
    if p.Keyword? then p.word else p.second
  }

  /** A forbidden pattern matches no text made of words other than its anchor. */
  lemma NoPatternAmongWords(p: Pattern, words: seq<string>)
    requires Anchor(p) != [] && AllWordChars(Anchor(p)) && |words| >= 1
    requires forall k :: 0 <= k < |words| ==> AllWordChars(words[k]) && words[k] != Anchor(p)
    ensures !Search(p, JoinSpaced(words))
  {
    var w := Anchor(p);
    NotInWords(w, words);
    if p.Phrase? && Search(p, JoinSpaced(words)) {
      PhraseNeedsSecondWord(p.first, p.second, JoinSpaced(words));
    }
  }

  /** Every anchor is a non-empty run of word characters. */
  lemma AnchorsAreWords()
    ensures forall k :: 0 <= k < |DangerousPatterns| ==>
      Anchor(DangerousPatterns[k]) != [] && AllWordChars(Anchor(DangerousPatterns[k]))
  {
    assert AllWordChars("INSERT") && AllWordChars("UPDATE") && AllWordChars("DELETE");
    assert AllWordChars("DROP") && AllWordChars("ALTER") && AllWordChars("TABLE");
    assert AllWordChars("INDEX") && AllWordChars("VIEW");
  }

  lemma IdentifierExampleUpper()
    ensures Upper("SELECT " + "update_count" + " FROM leads") == "SELECT " + "UPDATE_COUNT" + " FROM LEADS"
  {
    UpperAppend("SELECT " + "update_count", " FROM leads");
    UpperAppend("SELECT ", "update_count");
    assert Upper("SELECT ") == "SELECT ";
    assert Upper("update_count") == "UPDATE_COUNT";
    assert Upper(" FROM leads") == " FROM LEADS";
  }

  lemma IdentifierExampleWords()
    ensures JoinSpaced(["SELECT", "UPDATE_COUNT", "FROM", "LEADS"]) == "SELECT " + "UPDATE_COUNT" + " FROM LEADS"
  {
    var words := ["SELECT", "UPDATE_COUNT", "FROM", "LEADS"];
    assert words[1..][1..][1..] == ["LEADS"];
    assert JoinSpaced(words[1..][1..]) == "FROM" + [' '] + "LEADS" == "FROM LEADS";
    assert JoinSpaced(words[1..]) == "UPDATE_COUNT" + [' '] + "FROM LEADS";
    assert JoinSpaced(words) == "SELECT" + [' '] + ("UPDATE_COUNT" + [' '] + "FROM LEADS");
    assert "SELECT" + [' '] == "SELECT ";
    assert [' '] + "FROM LEADS" == " FROM LEADS";
  }

  lemma IdentifierExampleChars(words: seq<string>)
    requires words == ["SELECT", "UPDATE_COUNT", "FROM", "LEADS"]
    ensures StartsWith(JoinSpaced(words), "SELECT")
    ensures forall k :: 0 <= k < |words| ==> AllWordChars(words[k])
    ensures forall k, p :: 0 <= k < |words| && 0 <= p < |DangerousPatterns| ==> words[k] != Anchor(DangerousPatterns[p])
  {
    assert JoinSpaced(words) == words[0] + [' '] + JoinSpaced(words[1..]);
    IdentifierExampleWordChars(words);
    IdentifierExampleNoAnchor(words);
  }

  lemma IdentifierExampleWordChars(words: seq<string>)
    requires words == ["SELECT", "UPDATE_COUNT", "FROM", "LEADS"]
    ensures forall k :: 0 <= k < |words| ==> AllWordChars(words[k])
  {
    assert AllWordChars("SELECT");
    assert AllWordChars("UPDATE") && AllWordChars("_COUNT");
    assert "UPDATE_COUNT" == "UPDATE" + "_COUNT";
    assert AllWordChars("FROM");
    assert AllWordChars("LEADS");
  }

  lemma IdentifierExampleNoAnchor(words: seq<string>)
    requires words == ["SELECT", "UPDATE_COUNT", "FROM", "LEADS"]
    ensures forall k, p :: 0 <= k < |words| && 0 <= p < |DangerousPatterns| ==> words[k] != Anchor(DangerousPatterns[p])
  {
    AnchorHeads();
    forall k, p | 0 <= k < |words| && 0 <= p < |DangerousPatterns|
      ensures words[k] != Anchor(DangerousPatterns[p])
    {
      if k == 1 {
        assert |words[k]| == 12;
      } else {
        assert words[k][0] in {'S', 'F', 'L'};
      }
    }
  }

  /** Every anchor is at most six characters long and starts with none of `S`, `F`, `L`. */
  lemma AnchorHeads()
    ensures forall p :: 0 <= p < |DangerousPatterns| ==>
      0 < |Anchor(DangerousPatterns[p])| <= 6 && Anchor(DangerousPatterns[p])[0] !in {'S', 'F', 'L'}
  {
  }

  lemma IdentifierExampleNormalized()
    ensures Normalize("SELECT " + "update_count" + " FROM leads") == JoinSpaced(["SELECT", "UPDATE_COUNT", "FROM", "LEADS"])
  {
    IdentifierExampleUpper();
    var u := "SELECT " + "UPDATE_COUNT" + " FROM LEADS";
    assert u[0] == 'S' && u[|u| - 1] == 'S';
    StripUnchanged(u);
    IdentifierExampleWords();
  }

  /**
   * A column named `update_count` is not the keyword `UPDATE`: the statement
   * below passes the gate although `UPDATE` occurs in it.
   */
  lemma IdentifierIsNotKeyword()
    ensures Gate("SELECT " + "update_count" + " FROM leads") == Pass
  {
    var words := ["SELECT", "UPDATE_COUNT", "FROM", "LEADS"];
    IdentifierExampleNormalized();
    IdentifierExampleWords();
    IdentifierExampleChars(words);
    WordsPassScreen(words);
    ScreenPasses(JoinSpaced(words));
  }

  lemma ScreenPasses(u: string)
    requires StartsWith(u, "SELECT") && forall p :: 0 <= p < |DangerousPatterns| ==> !Search(DangerousPatterns[p], u)
    ensures Screen(u) == Pass
  {
  }

  /**
   * A `SELECT` statement made of whole words separated by single spaces, none
   * of which is a pattern's anchor word, passes whatever else it contains.
   */
  lemma WordsPassScreen(words: seq<string>)
    requires |words| >= 1 && StartsWith(JoinSpaced(words), "SELECT")
    requires forall k :: 0 <= k < |words| ==> AllWordChars(words[k])
    requires forall k, p :: 0 <= k < |words| && 0 <= p < |DangerousPatterns| ==> words[k] != Anchor(DangerousPatterns[p])
    ensures forall p :: 0 <= p < |DangerousPatterns| ==> !Search(DangerousPatterns[p], JoinSpaced(words))
  {
    AnchorsAreWords();
    NoneAmongWords(DangerousPatterns, words);
  }

  /** No pattern of a list matches words none of which is that pattern's anchor. */
  lemma NoneAmongWords(patterns: seq<Pattern>, words: seq<string>)
    requires forall p :: 0 <= p < |patterns| ==> Anchor(patterns[p]) != [] && AllWordChars(Anchor(patterns[p]))
    requires |words| >= 1 && forall k :: 0 <= k < |words| ==> AllWordChars(words[k])
    requires forall k, p :: 0 <= k < |words| && 0 <= p < |patterns| ==> words[k] != Anchor(patterns[p])
    ensures forall p :: 0 <= p < |patterns| ==> !Search(patterns[p], JoinSpaced(words))
  {
    forall p | 0 <= p < |patterns|
      ensures !Search(patterns[p], JoinSpaced(words))
    {
      NoPatternAmongWords(patterns[p], words);
    }
  }


  /** A keyword is absent from words joined by spaces when it is none of the words. */
  lemma {:induction false} NotInWords(w: string, words: seq<string>)
    requires w != [] && AllWordChars(w) && |words| >= 1
    requires forall k :: 0 <= k < |words| ==> AllWordChars(words[k]) && words[k] != w
    ensures !Search(Keyword(w), JoinSpaced(words))
  {
    if |words| == 1 {
      if Search(Keyword(w), words[0]) {
        KeywordInWord(w, words[0]);
      }
    } else {
      NotInWords(w, words[1..]);
      if Search(Keyword(w), JoinSpaced(words)) {
        KeywordAroundSeparator(w, words[0], ' ', JoinSpaced(words[1..]));
        KeywordInWord(w, words[0]);
      }
    }
  }

  /** Words separated by single spaces. */
  function JoinSpaced(words: seq<string>): string
    requires |words| >= 1
  {
    if |words| == 1 then words[0] else words[0] + [' '] + JoinSpaced(words[1..])
  }
}
