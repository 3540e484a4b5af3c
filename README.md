# clickhouse-cli session core in Dafny

This project models the decision and bookkeeping layer of the `CLI` class of
clickhouse-cli, a terminal client for the ClickHouse database. It covers:

- **Command rewriter.** For each statement, `handle_query` decides to do
  nothing, end the session, print the local help, kill a query by id, or send
  SQL. PostgreSQL-style shorthands (`\d`, `\dt`, `\d+`, `\l`, `\c`, `\ps`)
  are expanded first.
- **Terminal output.** What the session writes for a statement that was sent:
  the three error reports, or the result followed by
  `Ok. N row(s) in set. Elapsed: T sec.`.
- **`handle_input`.** The `\p` pager marker is cut off, the text is split
  into statements, and one fresh query id per statement is tracked in
  `query_ids`. The statements are handled in order, and the completion
  metadata is refreshed afterwards.
- **The interactive loop of `run`.** On Ctrl-C every tracked id gets one
  `kill_query`. `query_ids` is emptied after every turn, and end of input
  says `Bye.`.
- **`load_config`.** Host, port, user, password and database fall back from
  the command line to the file to a default, and command-line settings are
  laid over those of the file.
- **`connect`.** The `SELECT version();` probe and how its answer is read
  into a version triple.
- **`run`.** The choice of run mode (piped input, one query, a query fed
  with each input, or the shell), and gzip compression chosen by file name.

Modules:

| module | what it models |
|---|---|
| `Wrappers` | Python's `None` or a value (`Option`) |
| `Strings` | the `str` operations used: `startswith`, `endswith`, `lower`, `rstrip(';')`, `strip()`, `split` |
| `Numerals` | `str(n)` and `int(text)` on decimal integers |
| `Rewriter` | the `if`/`elif` chain of `handle_query`, as a pure function to an `Action` |
| `Reporting` | responses and call outcomes, the lines written for them, the help table |
| `Configuration` | the `load_config` fallbacks and the settings merge |
| `Probe` | reading the version probe's answer; what `connect` reports |
| `Modes` | run-mode selection and the gzip choice |
| `Dispatch` | the effect of statements, units and ingests as values: client calls, output, end of session |
| `Session` | the client (a recorder of calls), the query-id supply, and the `Cli` class with its fields and methods |

The state-changing parts are methods on the `Cli` class. This covers
`load_config`, `connect`, `handle_query`, `handle_input` with its loop over
statements, the loop that kills the tracked ids, the shell loop, and the
batch and ingest loops. The methods that handle one statement, one unit, one
shell turn or one ingest are proved against the pure functions of `Dispatch`,
and the properties that matter are proved as lemmas about those functions.
The outer methods (`Run`, `Prepare`, `Start`, `RunMode`, `RunBatch`,
`Interact`) state the configuration, the mode and how their loops end; the
gaps are listed under "Left out".

The modelled client is a class with a ghost log of its `query` and
`kill_query` calls. A constant function `server` gives each request's outcome:
an answer, a timeout, a connection failure or a server exception. The
statement splitter `sqlparse.split` is a constant function `split`.
`str(uuid4())` is modelled as an id supply whose n-th id is the decimal
numeral of n. So ids drawn in a row are pairwise distinct, and none equals an
id drawn earlier.

Where the documented behaviour of the program and its code differ, the
model follows the code:

- A whitespace-only statement is sent to the server. The code only skips
  statements that are empty after `rstrip(';')`; it does not skip statements
  that are blank.
- `multiline` is always taken from the configuration file, even when given on
  the command line.
- A probe answer that ends in a newline but does not start with three
  integers raises `IndexError`/`ValueError`, which `connect` does not catch.
  It is modelled as the `Crashed` connection state.

## Model

| member | source | states |
|---|---|---|
| Rewriter.SkipIff | clickhouse_cli/cli.py:258-259 | a statement is skipped exactly when it has no character other than ';' (the empty statement included) |
| Rewriter.StripsToNothing | clickhouse_cli/cli.py:258 | `rstrip(';')` leaves nothing exactly when the text is ';' only |
| Rewriter.QuitIff | clickhouse_cli/cli.py:261-262 | the session ends exactly on a non-empty statement whose lower-cased text is an exit command |
| Rewriter.HelpIff | clickhouse_cli/cli.py:264 | the help table is shown exactly for a non-empty, non-exit statement whose lower-cased text is `\?` or `help` |
| Rewriter.BackslashReachesExpand | clickhouse_cli/cli.py:258-264 | every statement starting with a backslash whose lower-cased text is neither `\?` nor an exit command reaches the shorthand expansion, the bare `\` and `\?x` included |
| Rewriter.ListingRewrites | clickhouse_cli/cli.py:294-301 | `\d` and `\dt` become `SHOW TABLES`, `\l` becomes `SHOW DATABASES` |
| Rewriter.DescribeRewrite | clickhouse_cli/cli.py:297-298 | `\d+ X` becomes `DESCRIBE TABLE X`, X being everything after the four-character prefix |
| Rewriter.UseRewrite | clickhouse_cli/cli.py:303-304 | `\c X` becomes `USE X`, X being everything after the three-character prefix |
| Rewriter.ProcessesRewrite | clickhouse_cli/cli.py:306-310 | any statement starting with `\ps` is sent as exactly `ProcessesQuery` of the patch version and the statement's id; its column is `read_rows` exactly when the patch version is at least 54115, else `rows_read`; it ends with the filter that leaves out the statement's own id |
| Rewriter.ProcessesQuery | clickhouse_cli/cli.py:307-310 | definition, no contract: the `system.processes` query; stated by `ProcessesQueryShape`, `ProcessesColumnPlace`, `ProcessesSuffix` |
| Rewriter.ProcessesQueryShape | clickhouse_cli/cli.py:307-310 | the column of the process-list query and the filter on the caller's own id |
| Rewriter.KillRewrite | clickhouse_cli/cli.py:312-314 | `\kill X` cancels X, everything after the six-character prefix, and sends nothing |
| Rewriter.CancelOnlyFromKill | clickhouse_cli/cli.py:312-314 | only a statement `\kill ` + id leads to a cancel, and the id is exactly the rest of the statement |
| Rewriter.ExpandCancels | clickhouse_cli/cli.py:294-314 | the shorthand expansion cancels only for `\kill ` + id |
| Rewriter.PassThrough | clickhouse_cli/cli.py:258-327 | a statement with a character other than ';' that is no exit command, not `help` or `\?`, and none of the shorthands `\d`, `\dt`, `\l`, `\d+ `, `\c `, `\ps`, `\kill ` is sent exactly as written; unknown backslash commands included |
| Rewriter.PlainPassThrough | clickhouse_cli/cli.py:316-327 | a non-empty statement not starting with a backslash, not an exit command and not `help` is sent exactly as written |
| Rewriter.Classify | clickhouse_cli/cli.py:258-314 | definition, no contract: the `if`/`elif` chain of `handle_query`, as an `Action`; its properties are the `Rewriter` lemmas above |
| Rewriter.Expand | clickhouse_cli/cli.py:294-314 | definition, no contract: the shorthand expansion; stated by `ListingRewrites` to `ExpandCancels` |
| Dispatch.StatementCalls | clickhouse_cli/cli.py:257-327 | one statement makes at most one client call: a query with the statement's own id exactly when the rewriter sends SQL, a kill exactly for a cancel, and then exactly `kill_query` of the cancelled id with no output; it ends the session exactly on an exit command; a ';'-only statement does nothing |
| Dispatch.KillStatement | clickhouse_cli/cli.py:312-314 | the statement `\kill X` (not an exit command) makes exactly one call, `kill_query(X)`, writes nothing and does not end the session |
| Dispatch.ActionEffect | clickhouse_cli/cli.py:289-402 | definition, no contract: the calls, output and end flag of one rewriter decision; stated by `StatementCalls`, `SentStatement`, `KillStatement` |
| Dispatch.StatementEffect | clickhouse_cli/cli.py:257-402 | definition, no contract: `handle_query` of one statement as a value; stated by `StatementCalls`, `SentStatement`, `KillStatement` |
| Dispatch.UnitEffect | clickhouse_cli/cli.py:249-252 | definition, no contract: the statements of a unit in order, up to an exit command; stated by `UnitEffectSnoc`, `UnitStep`, `UnitQueries`, `EmptyStatementsDoNothing` |
| Dispatch.IngestEffect | clickhouse_cli/cli.py:188-196 | definition, no contract: the query once per input; stated by `IngestQueries`, `IngestSnoc`, `IngestStep` |
| Dispatch.SentStatement | clickhouse_cli/cli.py:316-327 | a statement the rewriter sends makes exactly one query, with the session format and the statement's own arguments |
| Dispatch.ThenAppends | clickhouse_cli/cli.py:249-252 | after a statement that does not end the session, the next statement's calls and output follow |
| Dispatch.UnitEffectSnoc | clickhouse_cli/cli.py:249-252 | handling one more statement of a unit extends the unit's effect by that statement's |
| Dispatch.UnitStep | clickhouse_cli/cli.py:249-252 | the step of `handle_input`'s loop: calls and output so far plus statement i's are those of the first i + 1 statements |
| Dispatch.UnitQueries | clickhouse_cli/cli.py:248-252 | when every statement of a unit is SQL, the unit makes one query per statement, in order, the j-th with the j-th id |
| Dispatch.UnitSentCalls | clickhouse_cli/cli.py:248-252 | a unit whose statements are all SQL makes exactly the queries of `SentCalls` and does not end the session |
| Dispatch.SentCallsShape | clickhouse_cli/cli.py:248-252 | `SentCalls` holds one query per statement, the j-th for statement j with id j, unstreamed, uncompressed, without data |
| Dispatch.EmptyStatementsDoNothing | clickhouse_cli/cli.py:249-259 | a unit of ';'-only statements makes no call and writes nothing |
| Dispatch.IngestCalls | clickhouse_cli/cli.py:188-196 | the queries of an ingest: one per input, in input order, streamed, with that input as data and gzip exactly for `.gz` names |
| Dispatch.IngestQueries | clickhouse_cli/cli.py:185-196 | ingesting a query the rewriter sends makes exactly the calls of `IngestCalls` and never ends the session |
| Dispatch.IngestSnoc | clickhouse_cli/cli.py:188-196 | one more input appends that input's one query |
| Dispatch.IngestStep | clickhouse_cli/cli.py:188-196 | the step of the ingest loop |
| Dispatch.KillCalls | clickhouse_cli/cli.py:232-233 | one kill request per tracked id, same length, in order |
| Dispatch.ForcesPager | clickhouse_cli/cli.py:242-245 | definition, no contract: the unit ends in `\p`; stated with `Body` |
| Dispatch.UnitOutcome | clickhouse_cli/cli.py:248-252 | definition, no contract: what handling a unit did, as `UnitReach` (how far it got) and `UnitHandled` (the calls and output of the statements handled, the exit command, if any, last); stated by `FinishedOutcome`, `EndedOutcome`, `InterruptedOutcome` |
| Dispatch.FinishedOutcome | clickhouse_cli/cli.py:248-252 | a unit whose every statement ran without an exit command, with one id per statement and no interrupt, has finished |
| Dispatch.EndedOutcome | clickhouse_cli/cli.py:249-252 | a unit whose statement i is an exit command and none before it has ended with exactly i + 1 ids tracked: nothing is drawn or handled after the first exit command |
| Dispatch.IsExit | clickhouse_cli/cli.py:258-262 | definition, no contract: a statement with content whose lower-cased text is an exit command; stated by `UnitQuitIff` |
| Dispatch.UnitExits | clickhouse_cli/cli.py:248-252 | definition, no contract: some statement before the interrupt point is an exit command; stated by `EndedIff` |
| Dispatch.ExitsBefore | clickhouse_cli/cli.py:248-252 | definition, no contract: the statements looked at one by one; stated by `ExitsBeforeIff` |
| Dispatch.ExitsBeforeIff | clickhouse_cli/cli.py:248-252 | looking one by one finds an exit command among the first n statements exactly when there is one |
| Dispatch.UnitQuitStep | clickhouse_cli/cli.py:249-262 | one more statement ends the session when the ones before did or it is an exit command |
| Dispatch.UnitQuitIff | clickhouse_cli/cli.py:249-262 | the first n statements of a unit end the session exactly when one of them is an exit command |
| Dispatch.EndedIff | clickhouse_cli/cli.py:249-262 | a unit ends the session exactly when one of its statements before the interrupt point is an exit command |
| Dispatch.InterruptedOutcome | clickhouse_cli/cli.py:249-251 | a unit interrupted right after the id of statement i was tracked has handled exactly the i statements before it |
| Dispatch.Body | clickhouse_cli/cli.py:242-245 | with a trailing `\p` the body is the text without its last two characters, otherwise the text itself |
| Reporting.RowsLine | clickhouse_cli/cli.py:391-395 | definition, no contract: the `N row(s) in set.` line; stated by `RowsLineWording`, `RowsLineCount` |
| Reporting.RowsLineWording | clickhouse_cli/cli.py:391-395 | the status line reads `1 row in set.` for exactly one row and `N rows in set.` otherwise, zero included |
| Reporting.RowsLineCount | clickhouse_cli/cli.py:391-395 | the first word of the status line reads back as the row count |
| Reporting.FailureReport | clickhouse_cli/cli.py:328-348 | a timeout, a connection failure or a server exception shows only an error report: it starts with an error and has no result and no `Ok.` |
| Reporting.ServerErrorReport | clickhouse_cli/cli.py:334-348 | a server exception echoes the statement and the server's error, and the stack trace exactly when stack traces are on and one was sent |
| Reporting.AnswerReport | clickhouse_cli/cli.py:350-402 | a successful statement shows no error and exactly one `Ok.`, after all of the result, followed by the row-count line when the row count is known, and the closing newline last |
| Reporting.ResultShape | clickhouse_cli/cli.py:352-383 | when streaming, exactly one printed line per response line, in order, and no buffered payload; otherwise no streamed line and at most one payload, holding the buffered text, present exactly when that text is non-empty, through the pager when the pager option or `\p` asks, highlighted exactly when verbose with both highlight options on and a pretty format |
| Reporting.Report | clickhouse_cli/cli.py:316-402 | definition, no contract: the output for one sent statement and its outcome; stated by `FailureReport`, `ServerErrorReport`, `AnswerReport` |
| Reporting.ResultOutput | clickhouse_cli/cli.py:352-383 | definition, no contract: the result part of a successful answer; stated by `ResultShape` |
| Reporting.StatusOutput | clickhouse_cli/cli.py:385-402 | definition, no contract: the `Ok.`, row-count, elapsed and closing lines; stated by `AnswerReport`, `RowsLineWording` |
| Reporting.StreamedLines | clickhouse_cli/cli.py:352-355 | one printed line per response line, in order |
| Reporting.ShouldHighlight | clickhouse_cli/cli.py:363-368 | definition, no contract: the highlight condition of the buffered result; stated by `ResultShape` |
| Reporting.PadRight | clickhouse_cli/cli.py:290 | definition, no contract: `'{:<8s}'`; stated by `PadRightShape` |
| Reporting.HelpLines | clickhouse_cli/cli.py:289-291 | definition, no contract: the printed lines of the help rows; stated by `HelpLinesShape` |
| Reporting.HelpTable | clickhouse_cli/cli.py:265-291 | definition, no contract: the help table of `\?`; stated by `HelpTableShape` |
| Reporting.PadRightShape | clickhouse_cli/cli.py:290 | `'{:<8s}'` keeps the text as a prefix, adds only spaces, and reaches at least eight characters |
| Reporting.HelpLinesShape | clickhouse_cli/cli.py:289-291 | two lines per help row, in row order: the padded command, then the description |
| Reporting.HelpTableShape | clickhouse_cli/cli.py:265-291 | the help table: for each of its rows, the command padded with spaces to at least eight characters, then the description |
| Configuration.OrChainPrecedence | clickhouse_cli/cli.py:129-133 | `cli or config or fallback` takes the first non-empty value, and is non-empty when the fallback is |
| Configuration.ResolvePort | clickhouse_cli/cli.py:130 | the port is the command line's when non-zero, else the file's text when non-empty, else 8123; it is always set |
| Configuration.ResolvedTarget | clickhouse_cli/cli.py:129-133 | host, port, user, password and database each follow command line, then file, then `127.0.0.1` / 8123 / `default` / `''` / `default`; host, user and database are never empty |
| Configuration.ResolveTarget | clickhouse_cli/cli.py:129-133 | definition, no contract: the five connection values after `load_config`; stated by `ResolvedTarget` and `ResolvePort` |
| Configuration.Or | clickhouse_cli/cli.py:129-133 | definition, no contract: Python's `a or b` on strings; stated by `OrChainPrecedence` |
| Configuration.MergeSettings | clickhouse_cli/cli.py:135-138 | the merged settings have every key of either map, the command line's value wherever it has one, and the file's value otherwise |
| Probe.ProbeRoundTrip | clickhouse_cli/cli.py:101-106 | an answer `major.minor.patch`, possibly followed by more `.` parts, and a newline, is read back as that version |
| Probe.UnterminatedIff | clickhouse_cli/cli.py:101-103 | the answer is rejected as a failed request exactly when it lacks the trailing newline |
| Probe.ProbeConnects | clickhouse_cli/cli.py:83-113 | `connect` succeeds exactly on an answer that parses, holding that version; every refusal writes an error first; it crashes exactly on an unparseable answer |
| Probe.ParseProbe | clickhouse_cli/cli.py:101-106 | definition, no contract: reading the probe answer; stated by `ProbeRoundTrip` and `UnterminatedIff` |
| Probe.ProbeReport | clickhouse_cli/cli.py:83-113 | definition, no contract: the connection state and output of `connect`'s probe; stated by `ProbeConnects` and `ConnectsToAnsweredVersion` |
| Probe.ConnectsToAnsweredVersion | clickhouse_cli/cli.py:101-113 | a server answering `major.minor.patch` and a newline leads to a connection at that version |
| Numerals.PyIntIntText | clickhouse_cli/cli.py:106-110 | `int(str(n)) == n` for every integer, so the printed version reads back as the parsed one |
| Numerals.PyInt | clickhouse_cli/cli.py:106 | `int(text)` succeeds only on text with something left after stripping; round trip stated by `PyIntIntText` |
| Numerals.Decimal | clickhouse_cli/cli.py:109-110 | `str(n)` of a natural number: only digits, and no leading zero unless n is 0; read back by `PyIntIntText`, injective by `DecimalInjective` |
| Numerals.IntText | clickhouse_cli/cli.py:109-110 | definition, no contract: `str(n)` of an integer, with a minus sign when negative; stated by `PyIntIntText` |
| Numerals.DecimalInjective | clickhouse_cli/cli.py:250 | distinct draws give distinct ids |
| Modes.SelectMode | clickhouse_cli/cli.py:166-198 | batch exactly for input without a query, one-shot for a query without input, ingest for both, the shell for neither |
| Modes.NonInteractiveUsesStdinFormat | clickhouse_cli/cli.py:145-147 | the stdin format and quiet output are chosen exactly in the non-interactive modes |
| Modes.Extension | clickhouse_cli/cli.py:189 | definition, no contract: `os.path.splitext(name)[1]`; stated by `GzipIff` |
| Modes.Compression | clickhouse_cli/cli.py:189 | definition, no contract: `'gzip'` for a `.gz` extension, else none; stated by `GzipIff` |
| Modes.RFind | clickhouse_cli/cli.py:189 | the last position of a character, or -1: the character is there and not after it |
| Modes.GzipIff | clickhouse_cli/cli.py:189 | an input is sent gzip-compressed exactly when its name ends in `.gz` and its last path component has something other than dots before that suffix |
| Strings.Lower | clickhouse_cli/cli.py:261-264 | `str.lower()`: same length, each character lower-cased on its own |
| Strings.RStripChar | clickhouse_cli/cli.py:258 | `rstrip(';')`: a prefix of the text that does not end in ';' |
| Strings.LStrip | clickhouse_cli/cli.py:105 | `lstrip()`: a suffix of the text, not starting with whitespace, with only whitespace removed |
| Strings.RStrip | clickhouse_cli/cli.py:105 | `rstrip()`: a prefix of the text, not ending in whitespace, with only whitespace removed |
| Strings.Split | clickhouse_cli/cli.py:105 | `split('.')`: at least one part, none holding the separator |
| Strings.Strip | clickhouse_cli/cli.py:105 | definition, no contract: `strip()`, as `LStrip` of `RStrip`; stated by `StripTrimmed` |
| Session.FreshIds | clickhouse_cli/cli.py:250-251 | ids drawn in a row are pairwise distinct and differ from every id drawn before |
| Session.DrawnSnoc | clickhouse_cli/cli.py:250-251 | appending the next drawn id keeps the tracked ids a run of consecutive draws |
| Session.IdSupply.Fresh | clickhouse_cli/cli.py:250 | each draw gives the numeral of the draw count and advances it |
| Session.Client.Query | clickhouse_cli/cli.py:319-327 | a query is recorded in the log and answered by the server |
| Session.Client.KillQuery | clickhouse_cli/cli.py:233 | a kill is recorded in the log |
| Session.Cli.constructor | clickhouse_cli/cli.py:43-63 | every field starts from its command-line value, no configuration, no server version, no client, no tracked id, verbose coloured output |
| Session.Cli.LoadConfig | clickhouse_cli/cli.py:115-140 | the file's switches and timeouts are taken; the formats fall back from command line to file; the connection values resolve as `ResolveTarget`; settings merge as `MergeSettings`; the colours follow `highlight` |
| Session.Cli.ReadOptions | clickhouse_cli/cli.py:116-127 | the configuration is recorded; multiline, the switches and the timeouts come from the file; the two formats fall back from the command line to the file |
| Session.Cli.ResolveConnection | clickhouse_cli/cli.py:129-140 | the connection values become `ResolveTarget` of the old ones; the settings become the merge; the colours follow `highlight` |
| Session.PortShown | clickhouse_cli/cli.py:66 | definition, no contract: the port as `format` writes it (a number in decimal, a text as read); stated within `Connect`'s URL and `Connecting to` line |
| Session.Cli.Connect | clickhouse_cli/cli.py:65-113 | a fresh client with the session's connection values, the URL and the `Connecting to` line, one probe call, the outcome and output of `ProbeReport`, and the server version set exactly on success |
| Session.Cli.OpenClient | clickhouse_cli/cli.py:65-81 | the URL, a fresh client carrying the session's values and an empty log, the `Connecting to` line |
| Session.Cli.Probe | clickhouse_cli/cli.py:83-113 | one probe call; status and output as `ProbeReport`; the server version recorded exactly on success |
| Session.Cli.HandleQuery | clickhouse_cli/cli.py:257-402 | the client log and the output are extended by exactly the statement's effect, and the result says whether the session ends |
| Session.Cli.Perform | clickhouse_cli/cli.py:289-402 | the rewriter's decision leads to exactly the calls and output of `ActionEffect` |
| Session.Cli.HandleInput | clickhouse_cli/cli.py:241-255 | the tracked ids are fresh draws, one per statement reached, in order; the statements before an interrupt (or all, otherwise) are handled with the id at their own position and the unit's pager flag, up to an exit command; the metadata is refreshed exactly after a completed, non-empty unit when asked |
| Session.Cli.HandleStatements | clickhouse_cli/cli.py:248-252 | the loop over a unit's statements: the tracked ids are fresh draws, one per statement reached and none past the first exit command, and the log and output are those of `UnitOutcome` |
| Session.Cli.HandleNext | clickhouse_cli/cli.py:249-252 | one turn of that loop: an id is drawn and tracked; the unit stops with `UnitOutcome` on the interrupt or an exit command, and otherwise the first i + 1 statements have run |
| Session.Cli.Track | clickhouse_cli/cli.py:250-251 | a fresh id is drawn and appended to `query_ids`, which stay a run of consecutive draws |
| Session.Cli.HandleTracked | clickhouse_cli/cli.py:252 | statement i, handled under its tracked id, extends the unit's calls and output so far to those of the first i + 1 statements; when it is an exit command the unit has ended as `EndedOutcome` states |
| Session.Cli.KillTracked | clickhouse_cli/cli.py:232-233 | one `kill_query` per tracked id, in order, and no other call |
| Session.Cli.RunUnit | clickhouse_cli/cli.py:228-235 | a typed unit is handled verbosely with refresh; after an interrupt, every tracked id is killed and `Query was terminated.` is written; an exit command writes `Bye.` |
| Session.Cli.Iterate | clickhouse_cli/cli.py:226-239 | one shell turn: end of input writes `Bye.` and stops; Ctrl-C at the prompt kills nothing and writes the terminated line; a unit as `RunUnit`; the turn stops the shell exactly when `Stops` holds of its event; `query_ids` is empty afterwards in every case, and no id is drawn outside a unit |
| Session.Cli.Interact | clickhouse_cli/cli.py:223-239 | the metadata is loaded first; every turn run before the last one does not stop the shell; when the shell ends, its last turn is one that `Stops` and the last output is `Bye.`; otherwise every event was taken; `query_ids` is empty at the end |
| Session.Cli.Stops | clickhouse_cli/cli.py:226-239 | definition, no contract: Ctrl-D at the prompt, or a unit with an exit command before the interrupt point; stated by `Iterate` and `EndedIff` |
| Session.Cli.RunBatch | clickhouse_cli/cli.py:166-176 | every input is handled as a unit, quietly and without refresh, until one ends the session |
| Session.Cli.RunIngest | clickhouse_cli/cli.py:185-198 | the log and output are those of `IngestEffect` on the inputs handled, and it stops early only when the query ends the session |
| Session.Cli.Run | clickhouse_cli/cli.py:142-198 | configuration as `LoadConfig`: the connection values, the merged settings, the formats, multiline, highlight and colours, the switches and timeouts; the stdin format and quiet output exactly when there is input or a query; a mode runs exactly when the probe connects, and it is the one `SelectMode` picks; the client gets the merged settings |
| Session.Cli.Prepare | clickhouse_cli/cli.py:142-150 | configuration as `LoadConfig` (connection values, merged settings, formats, multiline, highlight and colours, switches, timeouts), then the stdin format and quiet output exactly in the non-interactive modes, and the version banner appended to the output exactly when still verbose |
| Session.Cli.ChooseOutput | clickhouse_cli/cli.py:145-150 | non-interactive use takes `format_stdin` and turns verbose off; the version banner is appended exactly when verbose, and nothing else is written |
| Session.Cli.Start | clickhouse_cli/cli.py:152-198 | a mode runs exactly when the probe connects, it is the selected one, and the client gets the settings first |
| Session.Cli.RunMode | clickhouse_cli/cli.py:166-198 | the one-shot query is handled as one streamed statement; batch does not refresh the metadata; the shell does |

## Left out

- The prompt_toolkit layout, buffer, key bindings and event loop: the shell's
  input is a sequence of events (a unit typed, Ctrl-C at the prompt, end of
  input).
- Ctrl-C while a statement runs: it is modelled as arriving right after that
  statement's id was tracked, before the statement is handled. A statement
  cut off part way through is not modelled.
- pygments highlighting and the pager: only the choice is modelled, as a
  `Payload` carrying its sink and a highlight flag.
- The HTTP client, its retries, and the `http.client` patch: the client is a
  recorder of calls, and a constant function gives each outcome.
- `sqlparse.split` and the keyword patches: the splitter is a constant
  function.
- `uuid4`: ids are decimal numerals of a draw counter. Only their
  distinctness is relied on.
- `parse_qs` and `read_config`: settings arrive as a map, and the file's
  values as a `Config` record.
- click options, the password prompt and `isatty`: the constructor and `Run`
  take the values directly. An absent value is passed as the empty string or,
  for the port, as 0. Python's `or` treats `None` and `''` alike.
- `EXIT_COMMANDS` and `PRETTY_FORMATS`: they come from
  clickhouse_cli/clickhouse/definitions.py, which is not part of this model.
  They are constant fields of `Cli`.
- The `.3f` formatting of elapsed times: an elapsed time is kept as a number
  (`ElapsedSeconds`).
- UTF-8 decoding of streamed lines, and `bytes` input: inputs and lines are
  strings, and `\p` is checked on text.
- Strings.Lower: folds ASCII letters only, where `str.lower()` folds every
  Unicode letter. Numerals.PyInt: accepts ASCII digits only, where `int()`
  also accepts `_` between digits and non-ASCII decimal digits.
- `client.cli_settings` and the completion metadata dictionary: they
  influence only completion. A metadata refresh is counted in the ghost field
  `refreshes`.
- The help table is built once per session and kept in the constant field
  `help`, rather than rebuilt on each `\?`.
- Session.Cli.RunBatch: states the number of inputs handled and that nothing
  is refreshed, not the calls and output of each unit.
- Session.Cli.Interact: states which turn ends the loop and that `Bye.` is
  last when it does, not the combined calls and output of all its turns;
  `Iterate` states those turn by turn.
- Session.Cli.RunMode: states the effect of the one-shot query and the
  refresh counts. It does not state the calls made in batch, ingest and
  shell modes. `RunIngest` states the ingest calls and `Iterate` each shell
  turn's; the batch calls are stated by no member (see `RunBatch`).
- Session.Cli.RunBatch, Session.Cli.RunIngest, Session.Cli.RunMode: in the
  batch, one-shot and ingest modes an exit command raises `EOFError`, which
  `run` does not catch. click then prints `Aborted!` and the program exits
  with status 1. The model stops handling inputs at that point and returns
  normally. The message and the exit status are not modelled.
- Session.Cli.Start: states the mode and the client settings. It does not
  restate the URL, the server version, or the `Connecting to` line and probe
  report it writes; `Connect`, which it calls first, states them.
- Session.Cli.Run: states the configuration, the mode and the client
  settings, not the output: the version banner is stated by `Prepare` only,
  and the work done in the mode by `RunMode` and the methods it calls.
- The server's answer is a function of the request alone, so identical
  requests always get identical outcomes: the same file ingested twice gets
  the same answer. Server state, timing and concurrent sessions are not
  modelled.
- Output is a list of calls on `Echo` (`print`, `success`, `error`, `info`)
  and on the builtin `print`, not the text that reaches the terminal. `run`
  switches `Echo`'s `verbose` off for the non-interactive modes
  (clickhouse_cli/cli.py:147), which the model takes to silence it; that
  quiet mode is not modelled, so a call is recorded in every mode. The
  `Echo` class (clickhouse_cli/ui/style.py) is not part of this model.
