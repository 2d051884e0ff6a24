/**
 * `format_response`: the reply text for the rows a query returned. There are
 * three shapes: no rows, a single row holding a `count`, and a table of one
 * line per lead under a header, a column line and an 80-dash rule.
 */
module Formatter {
  import opened Strings
  import opened Runtime
  import opened Timestamps

  const NoMatches := "No matching leads found."
  const ColumnLine := "Name | Email | Company | Category | Score | Time"
  const CellSeparator := " | "
  const NotAvailable := "N/A"
  const CountKey := "count"

  /** The 80-dash rule under the column line. */
  function RuleLine(): (r: string)
    ensures |r| == 80 && forall k :: 0 <= k < |r| ==> r[k] == '-'
  {
    Repeat('-', 80)
  }

  /** The first line of a table: `Found {N} matching leads:` and a newline. */
  function TableHeading(n: nat): string {
    "Found " + NatToString(n) + " matching leads:\n"
  }

  /** The reply to a lone count row. */
  function CountSentence(count: Value, floats: Floats): string {
    "Found " + Str(count, floats) + " matching leads."
  }

  /**
   * The `Score` cell: the placeholder stays, a number is shown to one
   * decimal, and anything else raises the error `format` raises for it.
   */
  function ScoreCell(score: Value, floats: Floats): (r: Result<string>)
    ensures r.Success? <==> score == Text(NotAvailable) || score.Integer? || score.Real?
    ensures score == Text(NotAvailable) ==> r == Success(NotAvailable)
    ensures score.Null? ==> r.Failure? && r.error.TypeError?
    ensures score.Text? && score != Text(NotAvailable) ==> r.Failure? && r.error.ValueError?
  {
    match score
    case Text(s) =>
      if s == NotAvailable then Success(NotAvailable)
      else Failure(ValueError("Unknown format code 'f' for object of type 'str'"))
    case Integer(i) => Success(floats.fixed1(i as real))
    case Real(x) => Success(floats.fixed1(x))
    case Null => Failure(TypeError("unsupported format string passed to NoneType.__format__"))
  }

  /** The four text cells of a lead, each `N/A` when its key is missing. */
  function TextCells(lead: Row, floats: Floats): seq<string> {
    [ Str(Get(lead, "name", Text(NotAvailable)), floats),
      Str(Get(lead, "email", Text(NotAvailable)), floats),
      Str(Get(lead, "company", Text(NotAvailable)), floats),
      Str(Get(lead, "category", Text(NotAvailable)), floats) ]
  }

  /** One table line; the score is formatted before the timestamp, so its error wins. */
  function LeadLine(lead: Row, floats: Floats): Result<string> {
    match ScoreCell(Get(lead, "score", Text(NotAvailable)), floats)
    case Failure(e) => Failure(e)
    case Success(score) =>
      match TimeCell(Get(lead, "created_at", Text("")))
      case Failure(e) => Failure(e)
      case Success(time) => Success(Join(CellSeparator, TextCells(lead, floats) + [score, time]))
  }

  /** The lines of `items` in order, or the error of the first item whose line fails. */
  function Lines<T>(items: seq<T>, line: T -> Result<string>): Result<seq<string>>
    decreases |items|
  {
    if items == [] then Success([])
    else
      match Lines(items[..|items| - 1], line)
      case Failure(e) => Failure(e)
      case Success(lines) =>
        match line(items[|items| - 1])
        case Failure(e) => Failure(e)
        case Success(l) => Success(lines + [l])
  }

  /** The lines of all leads in order, or the error of the first lead that fails. */
  function LeadLines(leads: seq<Row>, floats: Floats): Result<seq<string>> {
    Lines(leads, lead => LeadLine(lead, floats))
  }

  /** A lone row with a `count` key is the answer to a count query. */
  predicate IsCountReply(results: seq<Row>) {
    |results| == 1 && CountKey in results[0]
  }

  /** `format_response(results, question)`; the question is not used. */
  function Format(results: seq<Row>, floats: Floats): Result<string> {
    if results == [] then Success(NoMatches)
    else if IsCountReply(results) then Success(CountSentence(results[0][CountKey], floats))
    else
      match LeadLines(results, floats)
      case Failure(e) => Failure(e)
      case Success(lines) => Success(Join("\n", [TableHeading(|results|), ColumnLine, RuleLine()] + lines))
  }

  /** The loop of `format_response`, appending one line per lead. */
  method FormatResponse(results: seq<Row>, floats: Floats) returns (r: Result<string>)
    ensures r == Format(results, floats)
  {
    if results == [] {
      return Success(NoMatches);
    }
    if |results| == 1 && CountKey in results[0] {
      return Success(CountSentence(results[0][CountKey], floats));
    }
    var responseLines := [TableHeading(|results|), ColumnLine, RuleLine()];
    ghost var lines: seq<string> := [];
    for i := 0 to |results|
      invariant LeadLines(results[..i], floats) == Success(lines)
      invariant responseLines == [TableHeading(|results|), ColumnLine, RuleLine()] + lines
    {
      var line := LeadLine(results[i], floats);
      if line.Failure? {
        LeadLinesStopsAtFailure(results, floats, i);
        return Failure(line.error);
      }
      LeadLinesStep(results, floats, i, lines);
      lines := lines + [line.value];
      responseLines := responseLines + [line.value];
    }
    assert results[..|results|] == results;
    return Success(Join("\n", responseLines));
  }

  // ----- properties -----

  /** The lines succeed exactly when every item's line does; then there is one line per item, in order. */
  lemma {:induction false} LinesSuccess<T>(items: seq<T>, line: T -> Result<string>)
    ensures Lines(items, line).Success? <==> forall k :: 0 <= k < |items| ==> line(items[k]).Success?
    ensures Lines(items, line).Success? ==>
      && |Lines(items, line).value| == |items|
      && forall k :: 0 <= k < |items| ==> Lines(items, line).value[k] == line(items[k]).value
    decreases |items|
  {
    if items != [] {
      var init := items[..|items| - 1];
      LinesSuccess(init, line);
      assert forall k :: 0 <= k < |init| ==> init[k] == items[k];
    }
  }

  /** Failing lines carry the error of the first item whose line fails. */
  lemma {:induction false} LinesFailure<T>(items: seq<T>, line: T -> Result<string>)
    requires Lines(items, line).Failure?
    ensures exists k :: (0 <= k < |items| && line(items[k]) == Failure(Lines(items, line).error) &&
      (forall j :: 0 <= j < k ==> line(items[j]).Success?))
    decreases |items|
  {
    var init := items[..|items| - 1];
    var n := |items| - 1;
    assert forall k :: 0 <= k < n ==> init[k] == items[k];
    if Lines(init, line).Failure? {
      LinesFailure(init, line);
      var k :| 0 <= k < |init| && line(init[k]) == Failure(Lines(init, line).error) &&
        (forall j :: 0 <= j < k ==> line(init[j]).Success?);
      assert line(items[k]) == Failure(Lines(items, line).error);
    } else {
      LinesSuccess(init, line);
      assert line(items[n]) == Failure(Lines(items, line).error);
    }
  }

  /**
   * The lead lines succeed exactly when every lead's line does; then there
   * is one line per lead, in order.
   */
  lemma {:induction false} LeadLinesSuccess(leads: seq<Row>, floats: Floats)
    ensures LeadLines(leads, floats).Success? <==> forall k :: 0 <= k < |leads| ==> LeadLine(leads[k], floats).Success?
    ensures LeadLines(leads, floats).Success? ==>
      && |LeadLines(leads, floats).value| == |leads|
      && forall k :: 0 <= k < |leads| ==> LeadLines(leads, floats).value[k] == LeadLine(leads[k], floats).value
  {
    LinesSuccess(leads, lead => LeadLine(lead, floats));
  }

  /** A failing table carries the error of the first lead whose line fails. */
  lemma {:induction false} LeadLinesFailure(leads: seq<Row>, floats: Floats)
    requires LeadLines(leads, floats).Failure?
    ensures exists k :: (0 <= k < |leads| && LeadLine(leads[k], floats) == Failure(LeadLines(leads, floats).error) &&
      (forall j :: 0 <= j < k ==> LeadLine(leads[j], floats).Success?))
  {
    LinesFailure(leads, lead => LeadLine(lead, floats));
  }

  /** A good line at `i` after `i` good ones extends the lines by one. */
  lemma LeadLinesStep(results: seq<Row>, floats: Floats, i: nat, lines: seq<string>)
    requires i < |results| && LeadLine(results[i], floats).Success?
    requires LeadLines(results[..i], floats) == Success(lines)
    ensures LeadLines(results[..i + 1], floats) == Success(lines + [LeadLine(results[i], floats).value])
  {
    assert results[..i + 1][..i] == results[..i];
  }

  /** A failing line at `i` after `i` good ones is the error of the whole table. */
  lemma LeadLinesStopsAtFailure(results: seq<Row>, floats: Floats, i: nat)
    requires i < |results| && LeadLine(results[i], floats).Failure?
    requires LeadLines(results[..i], floats).Success?
    ensures LeadLines(results, floats) == Failure(LeadLine(results[i], floats).error)
  {
    LeadLinesSuccess(results[..i], floats);
    LeadLinesSuccess(results, floats);
    assert forall k :: 0 <= k < i ==> results[..i][k] == results[k];
    assert LeadLines(results, floats).Failure?;
    LeadLinesFailure(results, floats);
    var k :| 0 <= k < |results| && LeadLine(results[k], floats) == Failure(LeadLines(results, floats).error) &&
      (forall j :: 0 <= j < k ==> LeadLine(results[j], floats).Success?);
    assert k == i;
  }

  /**
   * A lead's line is its name, e-mail, company, category, score and time
   * joined by `" | "`; it fails exactly when its score or time cell fails.
   */
  lemma LeadLineCells(lead: Row, floats: Floats)
    ensures var score := ScoreCell(Get(lead, "score", Text(NotAvailable)), floats);
      var time := TimeCell(Get(lead, "created_at", Text("")));
      && (LeadLine(lead, floats).Success? <==> score.Success? && time.Success?)
      && (LeadLine(lead, floats).Success? ==>
            LeadLine(lead, floats).value ==
              Join(CellSeparator, TextCells(lead, floats) + [score.value, time.value]))
      && (score.Failure? ==> LeadLine(lead, floats) == Failure(score.error))
  {
  }

  /** Missing keys show as `N/A`, and so does a missing or empty timestamp. */
  lemma MissingFieldsShowPlaceholder(lead: Row, floats: Floats)
    ensures "name" !in lead ==> TextCells(lead, floats)[0] == NotAvailable
    ensures "email" !in lead ==> TextCells(lead, floats)[1] == NotAvailable
    ensures "company" !in lead ==> TextCells(lead, floats)[2] == NotAvailable
    ensures "category" !in lead ==> TextCells(lead, floats)[3] == NotAvailable
    ensures "score" !in lead ==> ScoreCell(Get(lead, "score", Text(NotAvailable)), floats) == Success(NotAvailable)
    ensures "created_at" !in lead || lead["created_at"] in {Null, Text("")} ==>
      TimeCell(Get(lead, "created_at", Text(""))) == Success(NotAvailable)
  {
    TimeCellShape(Get(lead, "created_at", Text("")));
  }

  lemma JoinNameAndPlaceholders(name: string)
    ensures Join(CellSeparator, [name, NotAvailable, NotAvailable, NotAvailable, NotAvailable, NotAvailable]) ==
      name + " | N/A | N/A | N/A | N/A | N/A"
  {
    var cells := [name, NotAvailable, NotAvailable, NotAvailable, NotAvailable, NotAvailable];
    var tail := CellSeparator + NotAvailable;
    assert Join(CellSeparator, cells[5..]) == NotAvailable;
    assert Join(CellSeparator, cells[4..]) == NotAvailable + tail;
    assert Join(CellSeparator, cells[3..]) == NotAvailable + tail + tail;
    assert Join(CellSeparator, cells[2..]) == NotAvailable + tail + tail + tail;
    assert Join(CellSeparator, cells[1..]) == NotAvailable + tail + tail + tail + tail;
    assert Join(CellSeparator, cells) == name + (tail + tail + tail + tail + tail);
    FivePlaceholders();
  }

  lemma FivePlaceholders()
    ensures var tail := CellSeparator + NotAvailable;
      tail + tail + tail + tail + tail == " | N/A | N/A | N/A | N/A | N/A"
  {
  }

  /** A lead that only has a name shows `N/A` everywhere else. */
  lemma NameOnlyLead(name: string, floats: Floats)
    ensures LeadLine(map["name" := Text(name)], floats) ==
      Success(name + " | N/A | N/A | N/A | N/A | N/A")
  {
    var lead := map["name" := Text(name)];
    MissingFieldsShowPlaceholder(lead, floats);
    assert Get(lead, "name", Text(NotAvailable)) == Text(name);
    var cells := [name, NotAvailable, NotAvailable, NotAvailable, NotAvailable, NotAvailable];
    assert TextCells(lead, floats) + [NotAvailable, NotAvailable] == cells;
    JoinNameAndPlaceholders(name);
  }

  /** No rows always give the fixed sentence. */
  lemma EmptyReply(floats: Floats)
    ensures Format([], floats) == Success(NoMatches)
  {
  }

  /** A lone row with a `count` key is a sentence. */
  lemma CountReply(row: Row, floats: Floats)
    requires CountKey in row
    ensures Format([row], floats) == Success(CountSentence(row[CountKey], floats))
  {
    assert [row][0] == row;
  }

  /** A zero count is still a sentence, not the no-match reply. */
  lemma ZeroCountReply(row: Row, floats: Floats)
    requires CountKey in row && row[CountKey] == Integer(0)
    ensures Format([row], floats) == Success("Found 0 matching leads.")
  {
    CountReply(row, floats);
    assert Str(Integer(0), floats) == [DigitChar(0)] == "0";
    assert CountSentence(Integer(0), floats) == "Found " + "0" + " matching leads." == "Found 0 matching leads.";
  }

  /** The same lone row without a `count` key is a one-line table. */
  lemma SingleLeadReply(row: Row, floats: Floats)
    requires CountKey !in row && LeadLine(row, floats).Success?
    ensures Format([row], floats) == Success(Join("\n", [TableHeading(1), ColumnLine, RuleLine(), LeadLine(row, floats).value]))
  {
    var rs := [row];
    assert rs[..0] == [] && rs[0] == row && !IsCountReply(rs);
    assert LeadLines([], floats) == Success([]);
    assert LeadLines(rs, floats) == Success([] + [LeadLine(row, floats).value]);
    assert rs != [] && LeadLines(rs, floats).Success? && LeadLines(rs, floats).value == [LeadLine(row, floats).value];
    assert [TableHeading(1), ColumnLine, RuleLine()] + [LeadLine(row, floats).value] ==
      [TableHeading(1), ColumnLine, RuleLine(), LeadLine(row, floats).value];
    assert Format(rs, floats) == Success(Join("\n", [TableHeading(|rs|), ColumnLine, RuleLine()] + [LeadLine(row, floats).value]));
  }

  /** A table reply is the lead lines under the three fixed lines, or the lead lines' error. */
  lemma TableOfLines(results: seq<Row>, floats: Floats)
    requires results != [] && !IsCountReply(results)
    ensures Format(results, floats).Success? <==> LeadLines(results, floats).Success?
    ensures LeadLines(results, floats).Success? ==>
      Format(results, floats).value == Join("\n", [TableHeading(|results|), ColumnLine, RuleLine()] + LeadLines(results, floats).value)
    ensures LeadLines(results, floats).Failure? ==> Format(results, floats).error == LeadLines(results, floats).error
  {
  }

  lemma TableSucceeds(results: seq<Row>, floats: Floats)
    requires results != [] && !IsCountReply(results)
    ensures Format(results, floats).Success? <==> forall k :: 0 <= k < |results| ==> LeadLine(results[k], floats).Success?
  {
    TableOfLines(results, floats);
    LeadLinesSuccess(results, floats);
  }

  lemma TableFirstError(results: seq<Row>, floats: Floats)
    requires results != [] && !IsCountReply(results) && Format(results, floats).Failure?
    ensures exists k :: 0 <= k < |results| && LeadLine(results[k], floats) == Failure(Format(results, floats).error)
  {
    TableOfLines(results, floats);
    LeadLinesFailure(results, floats);
  }

  /**
   * A table reply is the heading, the column line, the rule and one line
   * per lead, in order; N leads give N + 3 lines. When the rows are not a
   * lone count row, the reply fails exactly when some lead's line fails.
   */
  lemma TableReply(results: seq<Row>, floats: Floats)
    requires results != [] && !IsCountReply(results)
    ensures Format(results, floats).Success? <==> forall k :: 0 <= k < |results| ==> LeadLine(results[k], floats).Success?
    ensures Format(results, floats).Success? ==>
      && Format(results, floats).value == Join("\n", [TableHeading(|results|), ColumnLine, RuleLine()] + LeadLines(results, floats).value)
      && |LeadLines(results, floats).value| == |results|
      && forall k :: 0 <= k < |results| ==> LeadLines(results, floats).value[k] == LeadLine(results[k], floats).value
    ensures Format(results, floats).Failure? ==>
      exists k :: 0 <= k < |results| && LeadLine(results[k], floats) == Failure(Format(results, floats).error)
  {
    TableSucceeds(results, floats);
    if Format(results, floats).Success? {
      TableOfLines(results, floats);
      LeadLinesSuccess(results, floats);
    } else {
      TableFirstError(results, floats);
    }
  }

  /** A table reply ends with the last lead's line. */
  lemma TableEndsWithLastLead(results: seq<Row>, floats: Floats)
    requires results != [] && !IsCountReply(results) && Format(results, floats).Success?
    ensures EndsWith(Format(results, floats).value, LeadLine(results[|results| - 1], floats).value)
  {
    LeadLinesSuccess(results, floats);
    var lines := [TableHeading(|results|), ColumnLine, RuleLine()] + LeadLines(results, floats).value;
    assert lines[|lines| - 1] == LeadLine(results[|results| - 1], floats).value;
    JoinEndsWithLast("\n", lines);
  }
}
