/**
 * What `CLI.handle_query` writes to the terminal for one statement that was
 * sent to the server: the three error reports (timeout, connection failure,
 * server exception), or the result followed by the status line
 * `Ok. N row(s) in set. Elapsed: T sec.`; and the local help table.
 */
module Reporting {
  import opened Wrappers
  import opened Strings
  import opened Numerals

  /** One piped or file input: its name (used to pick compression) and its content. */
  datatype Item = Item(name: string, content: string)

  /** The arguments of one `Client.query` call. */
  datatype Request = Request(
    query: string,
    format: string,
    data: Option<Item>,
    stream: bool,
    verbose: bool,
    queryId: Option<string>,
    compress: Option<string>)

  /** A successful response: buffered text, its lines when streamed, and the status fields. */
  datatype Response = Response(
    data: string,
    lines: seq<string>,
    format: string,
    rows: Option<nat>,
    elapsed: Option<real>,
    message: string)

  /** How one `Client.query` call ends: a response, or one of the three errors it raises. */
  datatype Outcome =
    | Answer(response: Response)
    | TimedOut                                                  // TimeoutError
    | Unreachable                                               // ConnectionError
    | ServerError(error: string, stacktrace: string, elapsed: real)   // DBException

  /** Where a buffered result goes: straight to the terminal or through the pager. */
  datatype Sink = Terminal | Pager

  /**
   * One call that writes output: a method of the `Echo` helper or the builtin
   * `print`. The call is recorded even where `Echo` would stay silent.
   */
  datatype Emit =
    | ErrorText(text: string)                                   // Echo.error
    | Note(text: string)                                        // Echo.print, or the builtin print of the version banner
    | SuccessText(text: string)                                 // Echo.success
    | InfoText(text: string)                                    // Echo.info
    | Line(text: string)                                        // print of one streamed line
    | Payload(sink: Sink, highlighted: bool, text: string)      // the buffered result
    | ElapsedSeconds(seconds: real)                             // an `Elapsed: T sec.` line

  /** The display options `handle_query` consults. */
  datatype Display = Display(
    stacktrace: bool,
    pager: bool,
    highlight: bool,
    highlightOutput: bool,
    timing: bool,
    prettyFormats: set<string>)

  /** `'{n} row{s} in set.'` where the `s` is dropped only for exactly one row. */
  function RowsLine(rows: nat): string {
    Decimal(rows) + " row" + (if rows != 1 then "s" else "") + " in set."
  }

  /** The status line is singular for exactly one row and plural otherwise (zero included). */
  lemma RowsLineWording(rows: nat)
    ensures rows == 1 ==> RowsLine(rows) == "1 row in set."
    ensures rows != 1 ==> RowsLine(rows) == Decimal(rows) + " rows in set."
  {
    if rows == 1 {
      assert Decimal(1) == [DigitChar(1)] == "1";
    }
  }

  /** The first word of the status line reads back as the row count. */
  lemma RowsLineCount(rows: nat)
    ensures PyInt(Split(RowsLine(rows), ' ')[0]) == Some(rows)
  {
    var d := Decimal(rows);
    var after := "row" + (if rows != 1 then "s" else "") + " in set.";
    assert RowsLine(rows) == d + [' '] + after;
    assert ' ' !in d by {
      forall i | 0 <= i < |d| ensures d[i] != ' ' {
        assert IsDigit(d[i]);
      }
    }
    SplitAtSeparator(d, after, ' ');
    PyIntDecimal(rows);
  }

  /** Output is highlighted only in verbose mode, with both highlight options on, for a pretty format. */
  predicate ShouldHighlight(d: Display, verbose: bool, format: string) {
    verbose && d.highlight && d.highlightOutput && format in d.prettyFormats
  }

  function StreamedLines(lines: seq<string>): (r: seq<Emit>)
    ensures |r| == |lines|
    ensures forall i :: 0 <= i < |lines| ==> r[i] == Line(lines[i])
  {
    if lines == [] then [] else [Line(lines[0])] + StreamedLines(lines[1..])
  }

  /** The result itself: every line as it arrives, or the whole buffered text when there is any. */
  function ResultOutput(resp: Response, d: Display, stream: bool, verbose: bool, forcePager: bool): seq<Emit> {
    if stream then StreamedLines(resp.lines)
    else if resp.data != "" then
      [Payload(if d.pager || forcePager then Pager else Terminal, ShouldHighlight(d, verbose, resp.format), resp.data)]
    else []
  }

  /** `Ok. ` then the row count when known, then the elapsed time when timing is on and known. */
  function StatusOutput(resp: Response, d: Display): seq<Emit> {
    [SuccessText("Ok. ")]
    + (if resp.rows.Some? then [Note(RowsLine(resp.rows.value))] else [])
    + (if d.timing && resp.elapsed.Some? then [ElapsedSeconds(resp.elapsed.value)] else [])
    + [Note("\n")]
  }

  /** Everything written for one statement that was sent, given how the call ended. */
  function Report(query: string, outcome: Outcome, d: Display, stream: bool, verbose: bool, forcePager: bool): seq<Emit> {
    match outcome
    case TimedOut => [ErrorText("Error: Connection timeout.")]
    case Unreachable => [ErrorText("Error: Failed to connect.")]
    case ServerError(error, trace, elapsed) =>
      [ErrorText("\nQuery:"), ErrorText(query), ErrorText("\n\nReceived exception from server:"), ErrorText(error)]
      + (if d.stacktrace && trace != "" then [Note("\nStack trace:"), Note(trace)] else [])
      + [ElapsedSeconds(elapsed)]
    case Answer(resp) =>
      [Note("")]
      + ResultOutput(resp, d, stream, verbose, forcePager)
      + (if resp.message != "" then [Note(resp.message), Note("")] else [])
      + StatusOutput(resp, d)
  }

  /** Only an error report: it starts with an error, and has no result and no `Ok.`. */
  predicate ErrorOnly(r: seq<Emit>) {
    && |r| >= 1 && r[0].ErrorText?
    && forall i :: 0 <= i < |r| ==> !r[i].SuccessText? && !r[i].Line? && !r[i].Payload?
  }

  /** A statement that failed shows only its error report. */
  lemma FailureReport(query: string, outcome: Outcome, d: Display, stream: bool, verbose: bool, forcePager: bool)
    requires !outcome.Answer?
    ensures ErrorOnly(Report(query, outcome, d, stream, verbose, forcePager))
  {
  }

  /**
   * A server exception echoes the statement, then the server's error, then the
   * stack trace exactly when stack traces are on and one was sent, then the
   * elapsed time.
   */
  lemma ServerErrorReport(query: string, error: string, trace: string, elapsed: real,
                          d: Display, stream: bool, verbose: bool, forcePager: bool)
    ensures |Report(query, ServerError(error, trace, elapsed), d, stream, verbose, forcePager)|
      == if d.stacktrace && trace != "" then 7 else 5
    ensures Report(query, ServerError(error, trace, elapsed), d, stream, verbose, forcePager)[1] == ErrorText(query)
    ensures Report(query, ServerError(error, trace, elapsed), d, stream, verbose, forcePager)[3] == ErrorText(error)
    ensures d.stacktrace && trace != "" ==>
      Report(query, ServerError(error, trace, elapsed), d, stream, verbose, forcePager)[5] == Note(trace)
    ensures !(d.stacktrace && trace != "") ==>
      forall i :: 0 <= i < 5 ==> !Report(query, ServerError(error, trace, elapsed), d, stream, verbose, forcePager)[i].Note?
  {
  }

  /**
   * The shape of a successful report: `Ok.` at position `k` and nowhere else,
   * no error, no result after it, the row count right after it when there is
   * one, and the closing newline last.
   */
  predicate OkAt(r: seq<Emit>, k: nat, rows: Option<nat>) {
    && k < |r| - 1
    && r[k] == SuccessText("Ok. ")
    && (forall i :: 0 <= i < |r| && i != k ==> !r[i].SuccessText?)
    && (forall i :: 0 <= i < |r| ==> !r[i].ErrorText?)
    && (forall i :: k < i < |r| ==> !r[i].Line? && !r[i].Payload?)
    && (rows.Some? ==> r[k + 1] == Note(RowsLine(rows.value)))
    && r[|r| - 1] == Note("\n")
  }

  /** A successful statement shows no error and exactly one `Ok.`, after all of the result. */
  lemma AnswerReport(query: string, resp: Response, d: Display, stream: bool, verbose: bool, forcePager: bool)
    ensures exists k :: OkAt(Report(query, Answer(resp), d, stream, verbose, forcePager), k, resp.rows)
  {
    var head := [Note("")] + ResultOutput(resp, d, stream, verbose, forcePager)
      + (if resp.message != "" then [Note(resp.message), Note("")] else []);
    var status := StatusOutput(resp, d);
    var r := head + status;
    assert r == Report(query, Answer(resp), d, stream, verbose, forcePager);
    var k := |head|;
    assert forall i :: 0 <= i < |head| ==> !head[i].SuccessText? && !head[i].ErrorText?;
    assert forall i :: 1 <= i < |status| ==> !status[i].SuccessText? && !status[i].Line? && !status[i].Payload?;
    assert forall i :: 0 <= i < |status| ==> !status[i].ErrorText?;
    assert OkAt(r, k, resp.rows);
  }

  /**
   * Streaming never buffers: each line of the response is printed, in order,
   * and nothing else. Otherwise no line is printed one by one, and the
   * buffered text is shown unchanged at most once (exactly when it is not
   * empty), through the pager exactly when the pager option or the unit's
   * pager marker asks for it, and highlighted exactly in verbose mode with
   * both highlight options on and a pretty format.
   */
  lemma ResultShape(resp: Response, d: Display, stream: bool, verbose: bool, forcePager: bool)
    ensures var r := ResultOutput(resp, d, stream, verbose, forcePager);
      stream ==>
        && |r| == |resp.lines|
        && forall i :: 0 <= i < |r| ==> !r[i].Payload? && r[i].Line? && r[i].text == resp.lines[i]
    ensures var r := ResultOutput(resp, d, stream, verbose, forcePager);
      !stream ==>
        && |r| == (if resp.data == "" then 0 else 1)
        && forall i :: 0 <= i < |r| ==>
             && !r[i].Line? && r[i].Payload? && r[i].text == resp.data
             && (r[i].sink == Pager <==> d.pager || forcePager)
             && (r[i].highlighted <==> verbose && d.highlight && d.highlightOutput && resp.format in d.prettyFormats)
  {
  }

  /** `'{:<8s}'.format(s)`: `s` padded with spaces on the right to at least eight characters. */
  function PadRight(s: string, width: nat): string
    decreases width - |s|
  {
    if |s| >= width then s else PadRight(s + " ", width)
  }

  /** Padding keeps the text as a prefix, adds only spaces, and stops at the width. */
  lemma {:induction false} PadRightShape(s: string, width: nat)
    ensures var r := PadRight(s, width);
      && |r| == (if |s| >= width then |s| else width)
      && s <= r
      && forall i :: |s| <= i < |r| ==> r[i] == ' '
    decreases width - |s|
  {
    if |s| < width {
      PadRightShape(s + " ", width);
      var r := PadRight(s, width);
      assert s <= s + " ";
      forall i | |s| <= i < |r|
        ensures r[i] == ' '
      {
        if i == |s| {
          assert (s + " ")[i] == ' ';
        }
      }
    }
  }

  /** The first section of the help table: the shell's own commands. */
  const CustomCommandRows: seq<(string, string)> := [
    ("", ""),
    ("clickhouse-cli's custom commands:", ""),
    ("---------------------------------", ""),
    ("USE", "Change the current database."),
    ("SET", "Set an option for the current CLI session."),
    ("QUIT", "Exit clickhouse-cli."),
    ("HELP", "Show this help message.")
  ]

  /** The second section: the PostgreSQL-style shorthands. */
  const ShorthandRows: seq<(string, string)> := [
    ("", ""),
    ("PostgreSQL-like custom commands:", ""),
    ("--------------------------------", ""),
    ("\\l", "Show databases."),
    ("\\c", "Change the current database."),
    ("\\d, \\dt", "Show tables in the current database."),
    ("\\d+", "Show table's schema."),
    ("\\ps", "Show current queries."),
    ("\\kill", "Kill query by its ID.")
  ]

  /** The third section: the suffixes a query may end with. */
  const SuffixRows: seq<(string, string)> := [
    ("", ""),
    ("Query suffixes:", ""),
    ("---------------", ""),
    ("\\g, \\G", "Use the Vertical format."),
    ("\\p", "Enable the pager.")
  ]

  /** The rows of the help table, a command (or heading) and its description each, section by section. */
  const HelpRows: seq<(string, string)> := CustomCommandRows + ShorthandRows + SuffixRows

  /** Each row as its command padded to eight characters, then its description. */
  function HelpLines(rows: seq<(string, string)>): seq<Emit> {
    if rows == [] then []
    else [SuccessText(PadRight(rows[0].0, 8)), InfoText(rows[0].1)] + HelpLines(rows[1..])
  }

  /** Two lines per row, in row order: the padded command (no line break after it), then the description. */
  lemma {:induction false} HelpLinesShape(rows: seq<(string, string)>)
    ensures |HelpLines(rows)| == 2 * |rows|
    ensures forall i :: 0 <= i < |rows| ==>
      HelpLines(rows)[2 * i] == SuccessText(PadRight(rows[i].0, 8)) && HelpLines(rows)[2 * i + 1] == InfoText(rows[i].1)
  {
    if rows != [] {
      HelpLinesShape(rows[1..]);
      var r := HelpLines(rows);
      forall i | 1 <= i < |rows|
        ensures r[2 * i] == SuccessText(PadRight(rows[i].0, 8)) && r[2 * i + 1] == InfoText(rows[i].1)
      {
        assert r[2 * i] == HelpLines(rows[1..])[2 * (i - 1)];
        assert r[2 * i + 1] == HelpLines(rows[1..])[2 * (i - 1) + 1];
        assert rows[1..][i - 1] == rows[i];
      }
    }
  }

  /** The help table: each row as its padded command then its description. */
  function HelpTable(): seq<Emit> {
    HelpLines(HelpRows)
  }

  /**
   * The help table has two lines per row: the row's command, padded with
   * spaces to at least eight characters, then its description.
   */
  lemma HelpTableShape()
    ensures |HelpTable()| == 2 * |HelpRows|
    ensures forall i :: 0 <= i < |HelpRows| ==>
      var cell := HelpTable()[2 * i];
      && cell.SuccessText? && HelpRows[i].0 <= cell.text && |cell.text| >= 8
      && (forall k :: |HelpRows[i].0| <= k < |cell.text| ==> cell.text[k] == ' ')
      && HelpTable()[2 * i + 1] == InfoText(HelpRows[i].1)
  {
    HelpLinesShape(HelpRows);
    forall i | 0 <= i < |HelpRows| {
      PadRightShape(HelpRows[i].0, 8);
    }
  }
}
