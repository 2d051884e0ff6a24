/**
 * `LeadQueryAgent.translate_question`: the keyword-driven translation of a
 * question about leads into one SQL statement.
 *
 * The question is lower-cased and stripped; then, by ordered substring
 * tests, at most one date filter and at most one category filter are
 * chosen, a company filter comes from the first `from <word>` in the
 * question, an AI question swaps in the enrichment join and adds its own
 * filter, and a count question replaces the selection by a `COUNT(*)`.
 * The filters are joined with ` AND ` behind one ` WHERE `, and only a
 * non-count statement gets the `ORDER BY … LIMIT 50` tail.
 */
module Translator {
  import opened Strings
  import opened Runtime

  // ----- the statement text -----

  /** The selection of the six lead columns, one literal per source line (long lines split). */
  const BaseSelectLines: seq<string> := [
    "\n        SELECT ",
    "\n            l.name,",
    "\n            l.email, ",
    "\n            l.company,",
    "\n            ls.category,",
    "\n            ls.score,",
    "\n            l.created_at",
    "\n        FROM leads l",
    "\n        LEFT JOIN lead_scores",
    " ls ON l.id = ls.lead_id",
    "\n        "
  ]
  const BaseSelect: string := Join("", BaseSelectLines)

  /** The same selection with the enrichment table joined in. */
  const AiSelectLines: seq<string> := [
    "\n            SELECT ",
    "\n                l.name,",
    "\n                l.email, ",
    "\n                l.company,",
    "\n                ls.category,",
    "\n                ls.score,",
    "\n                l.created_at",
    "\n            FROM leads l",
    "\n            LEFT JOIN",
    " lead_scores ls",
    " ON l.id = ls.lead_id",
    "\n            LEFT JOIN",
    " lead_enrichment le",
    " ON l.id = le.lead_id",
    "\n            "
  ]
  const AiSelect: string := Join("", AiSelectLines)

  /** The count selection a count question uses instead. */
  const CountSelect: string :=
    "SELECT COUNT(*) as count"
    + " FROM leads l LEFT JOIN"
    + " lead_scores ls ON l.id ="
    + " ls.lead_id"

  const WhereKeyword := " WHERE "
  const AndSeparator := " AND "
  const OrderClause := " ORDER BY l.created_at" + " DESC LIMIT 50"
  const CountMarker := "COUNT(*)"

  const Today := "DATE(l.created_at)" + " = DATE('now')"
  const Yesterday := "DATE(l.created_at)" + " = DATE('now', '-1 day')"
  const LastSevenDays := "DATE(l.created_at)" + " >= DATE('now', '-7 days')"
  const DateConditions: set<string> := {Today, Yesterday, LastSevenDays}

  const HotCategory := "ls.category = 'Hot'"
  const WarmCategory := "ls.category = 'Warm'"
  const ColdCategory := "ls.category = 'Cold'"
  const CategoryConditions: set<string> := {HotCategory, WarmCategory, ColdCategory}

  const MentionsAiCondition := "le.mentions_ai = 1"

  /** `f"l.company LIKE '%{company}%'"` */
  function CompanyLike(company: string): string {
    "l.company LIKE '%" + company + "%'"
  }

  // ----- the question -----

  /** `question.lower().strip()` */
  function NormalizeQuestion(question: string): (q: string)
    ensures NoUpper(q)
  {
    var l := Lower(question);
    var q := Strip(l);
    assert q != [] ==> q == l[SpanStart(l)..SpanEnd(l)];
    q
  }

  function DateCondition(q: string): Option<string> {
    if Contains(q, "today") then Some(Today)
    else if Contains(q, "yesterday") then Some(Yesterday)
    else if Contains(q, "this week") || Contains(q, "last 7 days") then Some(LastSevenDays)
    else None
  }

  function CategoryCondition(q: string): Option<string> {
    if Contains(q, "hot lead") then Some(HotCategory)
    else if Contains(q, "warm lead") then Some(WarmCategory)
    else if Contains(q, "cold lead") then Some(ColdCategory)
    else None
  }

  /** One past the whitespace run that starts at `k`. */
  function SpaceRunEnd(q: string, k: nat): (e: nat)
    requires k <= |q|
    ensures k <= e <= |q|
    ensures forall j :: k <= j < e ==> IsSpace(q[j])
    ensures e < |q| ==> !IsSpace(q[e])
    decreases |q| - k
  {
    if k == |q| || !IsSpace(q[k]) then k else SpaceRunEnd(q, k + 1)
  }

  /** One past the run of word characters that starts at `k`. */
  function WordRunEnd(q: string, k: nat): (e: nat)
    requires k <= |q|
    ensures k <= e <= |q|
    ensures forall j :: k <= j < e ==> IsWordChar(q[j])
    ensures e < |q| ==> !IsWordChar(q[e])
    decreases |q| - k
  {
    if k == |q| || !IsWordChar(q[k]) then k else WordRunEnd(q, k + 1)
  }

  /** `from\s+(\w+)` can match at index `i`: `from`, whitespace, then a word character. */
  predicate CompanyMatchAt(q: string, i: nat) {
    && OccursAt(q, "from", i)
    && var s := SpaceRunEnd(q, i + 4);
       i + 4 < s < |q| && IsWordChar(q[s])
  }

  /** The leftmost index at or after `i` where the company pattern matches. */
  function FirstCompanyMatch(q: string, i: nat): (r: Option<nat>)
    requires i <= |q|
    ensures r.Some? ==> i <= r.value < |q| && CompanyMatchAt(q, r.value)
    ensures forall j :: i <= j <= |q| && (r.None? || j < r.value) ==> !CompanyMatchAt(q, j)
    decreases |q| - i
  {
    if i == |q| then None
    else if CompanyMatchAt(q, i) then Some(i)
    else FirstCompanyMatch(q, i + 1)
  }

  /** `re.search(r'from\s+(\w+)', q).group(1)`, when there is a match. */
  function CompanyToken(q: string): (r: Option<string>)
    ensures r.Some? ==> r.value != [] && forall k :: 0 <= k < |r.value| ==> IsWordChar(r.value[k])
  {
    match FirstCompanyMatch(q, 0)
    case None => None
    case Some(i) =>
      var s := SpaceRunEnd(q, i + 4);
      Some(q[s..WordRunEnd(q, s)])
  }

  function CompanyCondition(q: string): Option<string> {
    match CompanyToken(q)
    case None => None
    case Some(company) => Some(CompanyLike(company))
  }

  predicate AsksAboutAi(q: string) {
    Contains(q, "ai") && (Contains(q, "mention") || Contains(q, "companies"))
  }

  predicate AsksForCount(q: string) {
    StartsWith(q, "how many") || Contains(q, "count")
  }

  function AiCondition(q: string): Option<string> {
    if AsksAboutAi(q) then Some(MentionsAiCondition) else None
  }

  function OptList(o: Option<string>): seq<string> {
    if o.Some? then [o.value] else []
  }

  /** The filters, in the order date, category, company, AI. */
  function Conditions(q: string): seq<string> {
    OptList(DateCondition(q)) + OptList(CategoryCondition(q)) + OptList(CompanyCondition(q)) + OptList(AiCondition(q))
  }

  function Selection(q: string): string {
    if AsksForCount(q) then CountSelect else if AsksAboutAi(q) then AiSelect else BaseSelect
  }

  function WhereClause(conditions: seq<string>): string {
    if conditions == [] then "" else WhereKeyword + Join(AndSeparator, conditions)
  }

  function Ordering(q: string): string {
    if AsksForCount(q) then "" else OrderClause
  }

  /** The statement `translate_question` builds. */
  function Translate(question: string): string {
    var q := NormalizeQuestion(question);
    Selection(q) + WhereClause(Conditions(q)) + Ordering(q)
  }

  /** The date filter step: the first of `today`, `yesterday`, `this week`/`last 7 days` found. */
  method AddDateFilter(q: string, conditions: seq<string>) returns (result: seq<string>)
    ensures result == conditions + OptList(DateCondition(q))
  {
    result := conditions;
    if Contains(q, "today") {
      result := result + [Today];
    } else if Contains(q, "yesterday") {
      result := result + [Yesterday];
    } else if Contains(q, "this week") || Contains(q, "last 7 days") {
      result := result + [LastSevenDays];
    }
  }

  /** The category filter step: the first of `hot lead`, `warm lead`, `cold lead` found. */
  method AddCategoryFilter(q: string, conditions: seq<string>) returns (result: seq<string>)
    ensures result == conditions + OptList(CategoryCondition(q))
  {
    result := conditions;
    if Contains(q, "hot lead") {
      result := result + [HotCategory];
    } else if Contains(q, "warm lead") {
      result := result + [WarmCategory];
    } else if Contains(q, "cold lead") {
      result := result + [ColdCategory];
    }
  }

  /** The company filter step: `LIKE` on the group of the first `from <word>`. */
  method AddCompanyFilter(q: string, conditions: seq<string>) returns (result: seq<string>)
    ensures result == conditions + OptList(CompanyCondition(q))
  {
    result := conditions;
    var company := CompanyToken(q);
    if company.Some? {
      result := result + [CompanyLike(company.value)];
    }
  }

  /** The AI step: the enrichment join replaces the selection and the AI filter is added. */
  method AddAiFilter(q: string, select: string, conditions: seq<string>) returns (newSelect: string, result: seq<string>)
    ensures result == conditions + OptList(AiCondition(q))
    ensures newSelect == if AsksAboutAi(q) then AiSelect else select
  {
    newSelect, result := select, conditions;
    if Contains(q, "ai") && (Contains(q, "mention") || Contains(q, "companies")) {
      newSelect := AiSelect;
      result := result + [MentionsAiCondition];
    }
  }

  /** The tail step: `ORDER BY … LIMIT 50` exactly when the selection text holds no `COUNT(*)`. */
  method OrderTail(q: string, select: string) returns (orderClause: string)
    requires select == Selection(q)
    ensures orderClause == Ordering(q)
  {
    orderClause := "";
    SelectionMarker();
    if !Contains(select, CountMarker) {
      orderClause := OrderClause;
    }
  }

  /**
   * `translate_question`, step by step: the conditions list grows by
   * appends, the selection is reassigned for AI and count questions, and
   * the ordering tail is added exactly when the selection text holds no
   * `COUNT(*)`.
   */
  method TranslateQuestion(question: string) returns (sql: string)
    ensures sql == Translate(question)
  {
    var q := NormalizeQuestion(question);
    var conditions: seq<string> := [];
    conditions := AddDateFilter(q, conditions);
    assert conditions == OptList(DateCondition(q));
    conditions := AddCategoryFilter(q, conditions);
    conditions := AddCompanyFilter(q, conditions);
    var baseSelect;
    baseSelect, conditions := AddAiFilter(q, BaseSelect, conditions);
    if StartsWith(q, "how many") || Contains(q, "count") {
      baseSelect := CountSelect;
    }
    ConditionsOfSteps(q, conditions);
    var whereClause := "";
    if conditions != [] {
      whereClause := WhereKeyword + Join(AndSeparator, conditions);
    }
    assert baseSelect == Selection(q);
    assert whereClause == WhereClause(Conditions(q));
    var orderClause := OrderTail(q, baseSelect);
    sql := baseSelect + whereClause + orderClause;
    TranslateOfParts(question, q, baseSelect, whereClause, orderClause);
  }

  lemma ConditionsOfSteps(q: string, conditions: seq<string>)
    requires conditions ==
      OptList(DateCondition(q)) + OptList(CategoryCondition(q)) + OptList(CompanyCondition(q)) + OptList(AiCondition(q))
    ensures conditions == Conditions(q)
  {
  }

  /** The statement is its three parts, whatever they are called along the way. */
  lemma TranslateOfParts(question: string, q: string, sel: string, where: string, order: string)
    requires q == NormalizeQuestion(question) && sel == Selection(q)
    requires where == WhereClause(Conditions(q)) && order == Ordering(q)
    ensures Translate(question) == sel + where + order
  {
  }

  // ----- properties of the statement text -----

  /** Only the count selection holds `COUNT(*)`. */
  lemma SelectionMarker()
    ensures Contains(CountSelect, CountMarker)
    ensures !Contains(BaseSelect, CountMarker) && !Contains(AiSelect, CountMarker)
  {
    CountSelectHasMarker();
    NoStarInBaseSelect();
    NoStarInAiSelect();
    if Contains(BaseSelect, CountMarker) {
      ContainsChar(BaseSelect, CountMarker, 6);
    }
    if Contains(AiSelect, CountMarker) {
      ContainsChar(AiSelect, CountMarker, 6);
    }
  }

  lemma CountSelectHasMarker()
    ensures Contains(CountSelect, CountMarker)
  {
    var first := "SELECT COUNT(*) as count";
    assert OccursAt(first, CountMarker, 7);
    assert CountSelect[7..15] == first[7..15];
    assert OccursAt(CountSelect, CountMarker, 7);
  }

  lemma NoStarInBaseSelect()
    ensures '*' !in BaseSelect
  {
    JoinExcludes("", BaseSelectLines, '*');
  }

  lemma NoStarInAiSelect()
    ensures '*' !in AiSelect
  {
    JoinExcludes("", AiSelectLines, '*');
  }

  // ----- the company token -----

  /** A match of `from\s+(\w+)` starting at `i` whose group is `q[j..k]`. */
  predicate PatternMatch(q: string, i: int, j: int, k: int) {
    && OccursAt(q, "from", i)
    && i + 4 < j < k <= |q|
    && (forall m :: i + 4 <= m < j ==> IsSpace(q[m]))
    && (forall m :: j <= m < k ==> IsWordChar(q[m]))
  }

  /** A whitespace run that ends before a non-space character ends where `SpaceRunEnd` says. */
  lemma SpaceRunEndAt(q: string, a: nat, j: nat)
    requires a <= j < |q| && !IsSpace(q[j])
    requires forall m :: a <= m < j ==> IsSpace(q[m])
    ensures SpaceRunEnd(q, a) == j
  {
  }

  /**
   * The token is what Python's `re.search` reports: the group of the
   * leftmost match, which at that start begins after the whole whitespace
   * run and is the longest run of word characters. There is a token
   * exactly when the pattern matches somewhere.
   */
  lemma CompanyTokenIsFirstMatch(q: string)
    ensures CompanyToken(q).Some? <==> exists i, j, k :: PatternMatch(q, i, j, k)
    ensures CompanyToken(q).Some? ==>
      exists i, j, k :: && PatternMatch(q, i, j, k) && CompanyToken(q).value == q[j..k]
                        && forall i2, j2, k2 :: PatternMatch(q, i2, j2, k2) ==> i <= i2 && (i2 == i ==> j2 == j && k2 <= k)
  {
    forall i2, j2, k2 | PatternMatch(q, i2, j2, k2)
      ensures CompanyMatchAt(q, i2) && SpaceRunEnd(q, i2 + 4) == j2
    {
      SpaceIsNotWord(q[j2]);
      SpaceRunEndAt(q, i2 + 4, j2);
    }
    match FirstCompanyMatch(q, 0)
    case None =>
    case Some(i) =>
      var s := SpaceRunEnd(q, i + 4);
      var k := WordRunEnd(q, s);
      assert PatternMatch(q, i, s, k);
  }

  /** The token is lower-case word characters: no quote can end the `LIKE` literal early. */
  lemma CompanyTokenIsWord(q: string)
    requires NoUpper(q) && CompanyToken(q).Some?
    ensures var t := CompanyToken(q).value;
      '\'' !in t && '%' !in t && NoUpper(t)
  {
    var i := FirstCompanyMatch(q, 0).value;
    var s := SpaceRunEnd(q, i + 4);
    var t := CompanyToken(q).value;
    assert t == q[s..WordRunEnd(q, s)];
  }

  // ----- the conditions -----

  /** Where a filter belongs in the order: date, category, company, AI. */
  function Rank(c: string): nat {
    if c in DateConditions then 0
    else if c in CategoryConditions then 1
    else if c == MentionsAiCondition then 3
    else 2
  }

  /** A company filter is none of the fixed filters. */
  lemma CompanyFilterRank(company: string)
    ensures Rank(CompanyLike(company)) == 2
  {
    var c := CompanyLike(company);
    assert c[1] == '.';
    assert Today[1] == 'A' && Yesterday[1] == 'A' && LastSevenDays[1] == 'A';
  }

  /** Every chosen filter has the rank of its step. */
  lemma ConditionRanks(q: string)
    ensures DateCondition(q).Some? ==> Rank(DateCondition(q).value) == 0
    ensures CategoryCondition(q).Some? ==> Rank(CategoryCondition(q).value) == 1
    ensures CompanyCondition(q).Some? ==> Rank(CompanyCondition(q).value) == 2
    ensures AiCondition(q).Some? ==> Rank(AiCondition(q).value) == 3
  {
    if CompanyToken(q).Some? {
      CompanyFilterRank(CompanyToken(q).value);
    }
  }

  lemma OptionsInRankOrder(a: Option<string>, b: Option<string>, c: Option<string>, d: Option<string>)
    requires a.Some? ==> Rank(a.value) == 0
    requires b.Some? ==> Rank(b.value) == 1
    requires c.Some? ==> Rank(c.value) == 2
    requires d.Some? ==> Rank(d.value) == 3
    ensures var l := OptList(a) + OptList(b) + OptList(c) + OptList(d);
      forall i, j :: 0 <= i < j < |l| ==> Rank(l[i]) < Rank(l[j])
  {
  }

  /** A filter is in the list exactly when one of the four steps chose it. */
  lemma InConditions(q: string, x: string)
    ensures x in Conditions(q) <==>
      DateCondition(q) == Some(x) || CategoryCondition(q) == Some(x) || CompanyCondition(q) == Some(x) || AiCondition(q) == Some(x)
  {
  }

  /**
   * The filters come in the order date, category, company, AI, each at
   * most once: in particular there is at most one date filter and at most
   * one category filter.
   */
  lemma ConditionsInOrder(question: string)
    ensures var conds := Conditions(NormalizeQuestion(question));
      forall i, j :: 0 <= i < j < |conds| ==> Rank(conds[i]) < Rank(conds[j])
  {
    var q := NormalizeQuestion(question);
    ConditionRanks(q);
    OptionsInRankOrder(DateCondition(q), CategoryCondition(q), CompanyCondition(q), AiCondition(q));
  }

  /** The date filter is chosen by priority `today` > `yesterday` > `this week`/`last 7 days`. */
  lemma DateFilterPriority(question: string)
    ensures var q := NormalizeQuestion(question); var conds := Conditions(q);
      && (Today in conds <==> Contains(q, "today"))
      && (Yesterday in conds <==> !Contains(q, "today") && Contains(q, "yesterday"))
      && (LastSevenDays in conds <==>
            !Contains(q, "today") && !Contains(q, "yesterday") && (Contains(q, "this week") || Contains(q, "last 7 days")))
  {
    var q := NormalizeQuestion(question);
    ConditionRanks(q);
    InConditions(q, Today);
    InConditions(q, Yesterday);
    InConditions(q, LastSevenDays);
    assert |Today| == 32 && |Yesterday| == 42 && |LastSevenDays| == 44;
    assert Rank(Today) == 0 && Rank(Yesterday) == 0 && Rank(LastSevenDays) == 0;
  }

  /** The category filter is chosen by priority `hot lead` > `warm lead` > `cold lead`. */
  lemma CategoryFilterPriority(question: string)
    ensures var q := NormalizeQuestion(question); var conds := Conditions(q);
      && (HotCategory in conds <==> Contains(q, "hot lead"))
      && (WarmCategory in conds <==> !Contains(q, "hot lead") && Contains(q, "warm lead"))
      && (ColdCategory in conds <==> !Contains(q, "hot lead") && !Contains(q, "warm lead") && Contains(q, "cold lead"))
  {
    var q := NormalizeQuestion(question);
    ConditionRanks(q);
    InConditions(q, HotCategory);
    InConditions(q, WarmCategory);
    InConditions(q, ColdCategory);
    assert Rank(HotCategory) == 1 && Rank(WarmCategory) == 1 && Rank(ColdCategory) == 1;
  }

  // ----- the shape of the statement -----

  lemma NoWInBaseSelect() ensures 'W' !in BaseSelect { JoinExcludes("", BaseSelectLines, 'W'); }
  lemma NoWInAiSelect() ensures 'W' !in AiSelect { JoinExcludes("", AiSelectLines, 'W'); }
  lemma NoWInCountSelect() ensures 'W' !in CountSelect {}
  lemma NoWInOrderClause() ensures 'W' !in OrderClause {}

  lemma NoWInSelections()
    ensures 'W' !in BaseSelect && 'W' !in AiSelect && 'W' !in CountSelect && 'W' !in OrderClause
  {
    NoWInBaseSelect();
    NoWInAiSelect();
    NoWInCountSelect();
    NoWInOrderClause();
  }

  lemma WhereMarksConditions(sel: string, conds: seq<string>, ord: string)
    requires 'W' !in sel && 'W' !in ord
    ensures conds == [] <==> !Contains(sel + WhereClause(conds) + ord, "WHERE")
  {
    var sql := sel + WhereClause(conds) + ord;
    if conds == [] {
      assert sql == sel + ord;
      if Contains(sql, "WHERE") {
        ContainsChar(sql, "WHERE", 0);
      }
    } else {
      assert sql == sel + WhereKeyword + (Join(AndSeparator, conds) + ord);
      assert sql[|sel| + 1..|sel| + 6] == "WHERE";
      assert OccursAt(sql, "WHERE", |sel| + 1);
    }
  }

  /** There is a `WHERE` exactly when some filter was chosen. */
  lemma WhereIffConditions(question: string)
    ensures Conditions(NormalizeQuestion(question)) == [] <==> !Contains(Translate(question), "WHERE")
  {
    var q := NormalizeQuestion(question);
    NoWInSelections();
    assert 'W' !in Selection(q) && 'W' !in Ordering(q);
    WhereMarksConditions(Selection(q), Conditions(q), Ordering(q));
  }

  lemma NoYInCountSelect() ensures 'Y' !in CountSelect {}
  lemma NoYInDateFilters() ensures 'Y' !in Today && 'Y' !in Yesterday && 'Y' !in LastSevenDays {}
  lemma NoYInOtherFilters()
    ensures 'Y' !in HotCategory && 'Y' !in WarmCategory && 'Y' !in ColdCategory && 'Y' !in MentionsAiCondition
  {
  }

  lemma NoYInCountParts()
    ensures 'Y' !in CountSelect && 'Y' !in WhereKeyword && 'Y' !in AndSeparator
    ensures 'Y' !in Today && 'Y' !in Yesterday && 'Y' !in LastSevenDays
    ensures 'Y' !in HotCategory && 'Y' !in WarmCategory && 'Y' !in ColdCategory && 'Y' !in MentionsAiCondition
  {
    NoYInCountSelect();
    NoYInDateFilters();
    NoYInOtherFilters();
  }

  /** No filter of a normalized question holds an upper-case `Y`. */
  lemma NoYInConditions(q: string)
    requires NoUpper(q)
    ensures forall k :: 0 <= k < |Conditions(q)| ==> 'Y' !in Conditions(q)[k]
  {
    NoYInCountParts();
    if CompanyToken(q).Some? {
      CompanyTokenIsWord(q);
      var t := CompanyToken(q).value;
      assert 'Y' !in t;
      assert 'Y' !in "l.company LIKE '%" && 'Y' !in "%'";
    }
    forall x | x in Conditions(q)
      ensures 'Y' !in x
    {
      InConditions(q, x);
    }
  }

  /**
   * A count question selects `COUNT(*)` and gets no `ORDER BY … LIMIT 50`
   * tail; every other question ends with that tail.
   */
  lemma CountShape(question: string)
    ensures var q := NormalizeQuestion(question); var sql := Translate(question);
      && (AsksForCount(q) ==> StartsWith(sql, CountSelect) && !Contains(sql, "ORDER BY"))
      && (!AsksForCount(q) ==> EndsWith(sql, OrderClause))
  {
    var q := NormalizeQuestion(question);
    var sql := Translate(question);
    if AsksForCount(q) {
      assert sql == CountSelect + WhereClause(Conditions(q));
      assert sql[..|CountSelect|] == CountSelect;
      NoYInConditions(q);
      NoYInCountParts();
      JoinExcludes(AndSeparator, Conditions(q), 'Y');
      assert 'Y' !in sql;
      if Contains(sql, "ORDER BY") {
        ContainsChar(sql, "ORDER BY", 7);
      }
    } else {
      var front := Selection(q) + WhereClause(Conditions(q));
      assert sql == front + OrderClause;
      assert sql[|front|..] == OrderClause;
    }
  }

  /** "Count" is a bare substring test: a question about an account is a count question. */
  lemma AccountIsCount(question: string)
    requires Contains(NormalizeQuestion(question), "account")
    ensures AsksForCount(NormalizeQuestion(question))
  {
    assert OccursAt("account", "count", 2);
    ContainsTransitive(NormalizeQuestion(question), "account", "count");
  }

  /** With a final filter and no tail, a statement ends with that filter. */
  lemma EndsWithLastCondition(sel: string, conds: seq<string>)
    requires conds != []
    ensures EndsWith(sel + WhereClause(conds), conds[|conds| - 1])
  {
    JoinEndsWithLast(AndSeparator, conds);
    var j := Join(AndSeparator, conds);
    var last := conds[|conds| - 1];
    var sql := sel + WhereClause(conds);
    assert sql == (sel + WhereKeyword) + j;
    assert sql[|sql| - |last|..] == j[|j| - |last|..];
  }

  /** The AI filter is chosen exactly for AI questions, and it is always the last filter. */
  lemma AiFilterIsLast(q: string)
    ensures var conds := Conditions(q);
      && (AsksAboutAi(q) <==> MentionsAiCondition in conds)
      && (AsksAboutAi(q) ==> conds[|conds| - 1] == MentionsAiCondition)
  {
    ConditionRanks(q);
    InConditions(q, MentionsAiCondition);
    assert Rank(MentionsAiCondition) == 3;
  }

  /**
   * For an AI question the enrichment join replaces the selection and the
   * AI filter is the last one; a count question keeps that filter but drops
   * the join, and then the statement ends with the filter.
   */
  lemma AiShape(question: string)
    ensures var q := NormalizeQuestion(question); var sql := Translate(question); var conds := Conditions(q);
      && (AsksAboutAi(q) <==> MentionsAiCondition in conds)
      && (AsksAboutAi(q) ==> conds[|conds| - 1] == MentionsAiCondition)
      && (AsksAboutAi(q) && !AsksForCount(q) ==> StartsWith(sql, AiSelect))
      && (AsksAboutAi(q) && AsksForCount(q) ==> StartsWith(sql, CountSelect) && EndsWith(sql, MentionsAiCondition))
      && (!AsksAboutAi(q) && !AsksForCount(q) ==> StartsWith(sql, BaseSelect))
  {
    var q := NormalizeQuestion(question);
    AiFilterIsLast(q);
    TranslateStartsWithSelection(question);
    if AsksAboutAi(q) && AsksForCount(q) {
      CountAiEndsWithFilter(question);
    }
  }

  /** A statement starts with the selection its question chose. */
  lemma TranslateStartsWithSelection(question: string)
    ensures StartsWith(Translate(question), Selection(NormalizeQuestion(question)))
  {
    var q := NormalizeQuestion(question);
    StartsWithSelection(Selection(q), WhereClause(Conditions(q)), Ordering(q));
  }

  /** A count question about AI ends with the AI filter: there is no tail after it. */
  lemma CountAiEndsWithFilter(question: string)
    requires AsksAboutAi(NormalizeQuestion(question)) && AsksForCount(NormalizeQuestion(question))
    ensures EndsWith(Translate(question), MentionsAiCondition)
  {
    var q := NormalizeQuestion(question);
    var conds := Conditions(q);
    AiFilterIsLast(q);
    assert Translate(question) == Selection(q) + WhereClause(conds);
    EndsWithLastCondition(Selection(q), conds);
  }

  lemma StartsWithSelection(sel: string, where: string, order: string)
    ensures StartsWith(sel + where + order, sel)
  {
    assert (sel + where + order)[..|sel|] == sel;
  }

  // ----- examples -----

  lemma LeadsFromTodayNormalized()
    ensures NormalizeQuestion("Leads from today") == "leads from today"
  {
    assert Lower("Leads from today") == "leads from today";
    StripUnchanged("leads from today");
  }

  lemma LeadsFromTodayMatchAt6()
    ensures CompanyMatchAt("leads from today", 6)
  {
    var q := "leads from today";
    assert q[6..10] == "from";
    assert SpaceRunEnd(q, 10) == 11;
  }

  lemma LeadsFromTodayNoEarlierMatch()
    ensures forall i :: 0 <= i < 6 ==> !CompanyMatchAt("leads from today", i)
  {
    var q := "leads from today";
    assert 'f' !in q[..6];
    forall i | 0 <= i < 6
      ensures !CompanyMatchAt(q, i)
    {
      assert q[i] == q[..6][i];
    }
  }

  lemma LeadsFromTodayTokenEnd()
    ensures WordRunEnd("leads from today", 11) == 16
    ensures "leads from today"[11..16] == "today"
  {
  }

  lemma LeadsFromTodayToken()
    ensures CompanyToken("leads from today") == Some("today")
  {
    var q := "leads from today";
    LeadsFromTodayMatchAt6();
    LeadsFromTodayNoEarlierMatch();
    assert FirstCompanyMatch(q, 0) == Some(6);
    assert SpaceRunEnd(q, 10) == 11;
    LeadsFromTodayTokenEnd();
  }

  lemma LeadsFromTodayHasToday()
    ensures Contains("leads from today", "today")
  {
    assert OccursAt("leads from today", "today", 11);
  }

  lemma LeadsFromTodayLacks()
    ensures !Contains("leads from today", "hot lead")
    ensures !Contains("leads from today", "warm lead")
    ensures !Contains("leads from today", "cold lead")
    ensures !Contains("leads from today", "ai")
    ensures !Contains("leads from today", "count")
    ensures !StartsWith("leads from today", "how many")
  {
    var q := "leads from today";
    MissingChar(q, "hot lead", 0);
    MissingChar(q, "warm lead", 0);
    MissingChar(q, "cold lead", 0);
    MissingChar(q, "ai", 1);
    MissingChar(q, "count", 0);
    assert q[0] != "how many"[0];
  }

  lemma LeadsFromTodayConditions()
    ensures Conditions("leads from today") == [Today, CompanyLike("today")]
    ensures !AsksForCount("leads from today") && !AsksAboutAi("leads from today")
  {
    LeadsFromTodayToken();
    LeadsFromTodayHasToday();
    LeadsFromTodayLacks();
  }

  /**
   * The company token is taken even from a date word: "Leads from today"
   * gets both the date filter and `LIKE '%today%'`, in that order.
   */
  lemma LeadsFromTodayExample()
    ensures Translate("Leads from today") ==
      BaseSelect + (WhereKeyword + (Today + AndSeparator + CompanyLike("today"))) + OrderClause
  {
    var q := "leads from today";
    LeadsFromTodayNormalized();
    LeadsFromTodayConditions();
    var conds := [Today, CompanyLike("today")];
    assert Join(AndSeparator, conds) == Today + AndSeparator + CompanyLike("today") by {
      assert conds[1..] == [CompanyLike("today")];
    }
    assert Translate("Leads from today") == Selection(q) + WhereClause(conds) + Ordering(q);
  }

  lemma LeadsFromInsertNormalized()
    ensures NormalizeQuestion("Leads from insert") == "leads from insert"
  {
    assert Lower("Leads from insert") == "leads from insert";
    StripUnchanged("leads from insert");
  }

  lemma LeadsFromInsertMatchAt6()
    ensures CompanyMatchAt("leads from insert", 6)
  {
    var q := "leads from insert";
    assert q[6..10] == "from";
    assert SpaceRunEnd(q, 10) == 11;
  }

  lemma LeadsFromInsertNoEarlierMatch()
    ensures forall i :: 0 <= i < 6 ==> !CompanyMatchAt("leads from insert", i)
  {
    var q := "leads from insert";
    assert 'f' !in q[..6];
    forall i | 0 <= i < 6
      ensures !CompanyMatchAt(q, i)
    {
      assert q[i] == q[..6][i];
    }
  }

  lemma LeadsFromInsertTokenEnd()
    ensures WordRunEnd("leads from insert", 11) == 17
    ensures "leads from insert"[11..17] == "insert"
  {
  }

  lemma LeadsFromInsertToken()
    ensures CompanyToken("leads from insert") == Some("insert")
  {
    var q := "leads from insert";
    LeadsFromInsertMatchAt6();
    LeadsFromInsertNoEarlierMatch();
    assert FirstCompanyMatch(q, 0) == Some(6);
    assert SpaceRunEnd(q, 10) == 11;
    LeadsFromInsertTokenEnd();
  }

  /** The only `a` of "leads from insert" is followed by `d`. */
  lemma LeadsFromInsertNoAi()
    ensures !Contains("leads from insert", "ai")
  {
    var q := "leads from insert";
    assert 'a' !in q[..2] && 'a' !in q[3..] && q[3] == 'd';
    forall i | 0 <= i <= |q| - 2
      ensures !OccursAt(q, "ai", i)
    {
      if i < 2 {
        assert q[i..i + 2][0] == q[..2][i] != 'a';
      } else if i > 2 {
        assert q[i..i + 2][0] == q[3..][i - 3] != 'a';
      } else {
        assert q[i..i + 2][1] == q[3] != 'i';
      }
    }
  }

  lemma LeadsFromInsertLacks()
    ensures !Contains("leads from insert", "today") && !Contains("leads from insert", "yesterday")
    ensures !Contains("leads from insert", "this week") && !Contains("leads from insert", "last 7 days")
    ensures !Contains("leads from insert", "hot lead") && !Contains("leads from insert", "warm lead")
    ensures !Contains("leads from insert", "cold lead")
    ensures !Contains("leads from insert", "count") && !StartsWith("leads from insert", "how many")
  {
    var q := "leads from insert";
    MissingChar(q, "today", 4);
    MissingChar(q, "yesterday", 0);
    MissingChar(q, "this week", 1);
    MissingChar(q, "last 7 days", 5);
    MissingChar(q, "hot lead", 0);
    MissingChar(q, "warm lead", 0);
    MissingChar(q, "cold lead", 0);
    MissingChar(q, "count", 0);
    assert q[0] != "how many"[0];
  }

  lemma LeadsFromInsertConditions()
    ensures Conditions("leads from insert") == [CompanyLike("insert")]
    ensures !AsksForCount("leads from insert") && !AsksAboutAi("leads from insert")
  {
    LeadsFromInsertToken();
    LeadsFromInsertNoAi();
    LeadsFromInsertLacks();
  }

  /** The base selection opens with a line break, indentation and `SELECT `. */
  lemma BaseSelectHead()
    ensures BaseSelect == "\n        " + "SELECT" + (" " + Join("", BaseSelectLines[1..]))
  {
    SelectHead(BaseSelectLines);
  }

  lemma SelectHead(lines: seq<string>)
    requires |lines| >= 2 && lines[0] == "\n        SELECT "
    ensures Join("", lines) == "\n        " + "SELECT" + (" " + Join("", lines[1..]))
  {
    assert lines[0] == "\n        " + "SELECT" + " ";
  }

  /** "Leads from insert" selects the base columns with the company filter on `insert`. */
  lemma LeadsFromInsertExample()
    ensures Translate("Leads from insert") == BaseSelect + (WhereKeyword + CompanyLike("insert")) + OrderClause
  {
    var q := "leads from insert";
    LeadsFromInsertNormalized();
    LeadsFromInsertConditions();
    assert Join(AndSeparator, [CompanyLike("insert")]) == CompanyLike("insert");
    assert Translate("Leads from insert") == Selection(q) + WhereClause([CompanyLike("insert")]) + Ordering(q);
  }

  lemma HowManyMidSentenceNormalized()
    ensures NormalizeQuestion("list how many hot leads") == "list how many hot leads"
  {
    var q := "list how many hot leads";
    assert Lower(q) == q;
    StripUnchanged(q);
  }

  lemma HowManyMidSentenceNotCount()
    ensures !AsksForCount("list how many hot leads")
  {
    var q := "list how many hot leads";
    MissingChar(q, "count", 0);
    assert q[0] != "how many"[0];
  }

  /** "how many" counts only at the start of the question. */
  lemma HowManyOnlyAtStart()
    ensures EndsWith(Translate("list how many hot leads"), OrderClause)
  {
    HowManyMidSentenceNormalized();
    HowManyMidSentenceNotCount();
    CountShape("list how many hot leads");
  }
}
