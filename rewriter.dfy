/**
 * The command rewriter: the `if`/`elif` chain at the top of `CLI.handle_query`
 * that decides, for one statement, whether to do nothing, end the session,
 * show the local help, cancel a query by id, or send SQL to the server (after
 * expanding the PostgreSQL-style shorthands `\d`, `\dt`, `\d+`, `\l`, `\c`
 * and `\ps`).
 */
module Rewriter {
  import opened Wrappers
  import opened Strings

  /** The decision taken for one statement. */
  datatype Action =
    | Skip                    // nothing but ';': no call, no output
    | Quit                    // an exit command: the session ends
    | ShowHelp                // `\?` or `help`: the local help table
    | Cancel(id: string)      // `\kill ID`: one kill request, nothing sent
    | Send(sql: string)       // this SQL is sent to the server

  /** The server patch version from which `system.processes` calls its column `read_rows`. */
  const ReadRowsSince := 54115

  /** Length of the text before the row-count column in the `\ps` query. */
  const ProcessesColumnAt := 41

  function ProcessesColumn(patch: int): string {
    if patch >= ReadRowsSince then "read_rows" else "rows_read"
  }

  /** How Python's `str.format` renders the statement's query id (`None` when there is none). */
  function IdText(queryId: Option<string>): string {
    match queryId
    case Some(id) => id
    case None => "None"
  }

  const ProcessesHead := "SELECT query_id, user, address, elapsed, "
  const ProcessesTail := ", memory_usage FROM system.processes "

  /** The clause of the `\ps` query that leaves out the statement's own query. */
  function OwnQueryFilter(queryId: Option<string>): string {
    "WHERE query_id != '" + IdText(queryId) + "'"
  }

  /** The process-list query `\ps` expands to. */
  function ProcessesQuery(patch: int, queryId: Option<string>): string {
    ProcessesHead + ProcessesColumn(patch) + ProcessesTail + OwnQueryFilter(queryId)
  }

  /**
   * The decision for `query`. Only the exit and help checks compare the
   * lower-cased text; every other test is on the text as typed.
   */
  function Classify(query: string, exitCommands: set<string>, patch: int, queryId: Option<string>): Action {
    if RStripChar(query, ';') == "" then Skip
    else if Lower(query) in exitCommands then Quit
    else if Lower(query) == "\\?" || Lower(query) == "help" then ShowHelp
    else Expand(query, patch, queryId)
  }

  /** The backslash shorthands, tried in the source's order; anything else is sent unchanged. */
  function Expand(query: string, patch: int, queryId: Option<string>): Action {
    if query == "\\d" || query == "\\dt" then Send("SHOW TABLES")
    else if StartsWith(query, "\\d+ ") then Send("DESCRIBE TABLE " + query[4..])
    else if query == "\\l" then Send("SHOW DATABASES")
    else if StartsWith(query, "\\c ") then Send("USE " + query[3..])
    else if StartsWith(query, "\\ps") then Send(ProcessesQuery(patch, queryId))
    else if StartsWith(query, "\\kill ") then Cancel(query[6..])
    else Send(query)
  }

  /** A shorthand is either sent or, for `\kill`, a cancel. */
  lemma ExpandKind(query: string, patch: int, queryId: Option<string>)
    ensures Expand(query, patch, queryId).Send? || Expand(query, patch, queryId).Cancel?
  {
  }

  /** True when `query` has a character other than ';' (it survives `rstrip(';')`). */
  predicate HasContent(query: string) {
    exists i :: 0 <= i < |query| && query[i] != ';'
  }

  /** `rstrip(';')` leaves nothing exactly when there is nothing but ';'. */
  lemma StripsToNothing(query: string)
    ensures RStripChar(query, ';') == "" <==> !HasContent(query)
  {
    if HasContent(query) {
      var i :| 0 <= i < |query| && query[i] != ';';
      assert i < |RStripChar(query, ';')|;
    }
  }

  /** A statement is skipped exactly when it consists of ';' characters only (the empty one included). */
  lemma SkipIff(query: string, exitCommands: set<string>, patch: int, queryId: Option<string>)
    ensures Classify(query, exitCommands, patch, queryId) == Skip <==> !HasContent(query)
  {
    ExpandKind(query, patch, queryId);
    StripsToNothing(query);
  }

  /** The session ends exactly on a non-empty statement whose lower-cased text is an exit command. */
  lemma QuitIff(query: string, exitCommands: set<string>, patch: int, queryId: Option<string>)
    ensures Classify(query, exitCommands, patch, queryId) == Quit
      <==> HasContent(query) && Lower(query) in exitCommands
  {
    ExpandKind(query, patch, queryId);
    StripsToNothing(query);
  }

  /**
   * The help table is shown exactly for a non-empty statement that is not an
   * exit command and whose lower-cased text is `\?` or `help`.
   */
  lemma HelpIff(query: string, exitCommands: set<string>, patch: int, queryId: Option<string>)
    ensures Classify(query, exitCommands, patch, queryId) == ShowHelp
      <==> HasContent(query) && Lower(query) !in exitCommands && (Lower(query) == "\\?" || Lower(query) == "help")
  {
    ExpandKind(query, patch, queryId);
    StripsToNothing(query);
  }

  /** Text that differs from `lit` at position `k` neither equals it nor starts with it. */
  lemma Differs(q: string, lit: string, k: nat)
    requires k < |q| && k < |lit| && q[k] != lit[k]
    ensures q != lit && !StartsWith(q, lit)
  {
  }

  /**
   * A statement starting with a backslash, other than `\?` in any case and
   * the exit commands, reaches the shorthand expansion: the bare `\` and
   * `\?x` included.
   */
  lemma BackslashReachesExpand(q: string, exitCommands: set<string>, patch: int, queryId: Option<string>)
    requires |q| >= 1 && q[0] == '\\' && Lower(q) != "\\?"
    requires Lower(q) !in exitCommands
    ensures Classify(q, exitCommands, patch, queryId) == Expand(q, patch, queryId)
  {
    assert RStripChar(q, ';') != "" by {
      assert HasContent(q) by { assert q[0] != ';'; }
      StripsToNothing(q);
    }
    assert Lower(q)[0] == '\\';
    Differs(Lower(q), "help", 0);
  }

  /** `\d`, `\dt` and `\l` are the exact-text shorthands. */
  lemma ListingRewrites(exitCommands: set<string>, patch: int, queryId: Option<string>)
    requires Lower("\\d") !in exitCommands && Lower("\\dt") !in exitCommands && Lower("\\l") !in exitCommands
    ensures Classify("\\d", exitCommands, patch, queryId) == Send("SHOW TABLES")
    ensures Classify("\\dt", exitCommands, patch, queryId) == Send("SHOW TABLES")
    ensures Classify("\\l", exitCommands, patch, queryId) == Send("SHOW DATABASES")
  {
    BackslashReachesExpand("\\d", exitCommands, patch, queryId);
    BackslashReachesExpand("\\dt", exitCommands, patch, queryId);
    BackslashReachesExpand("\\l", exitCommands, patch, queryId);
    Differs("\\l", "\\d", 1);
    Differs("\\l", "\\dt", 1);
    Differs("\\l", "\\d+ ", 1);
  }

  /** `\d+ NAME` describes the table NAME: everything after the four-character prefix. */
  lemma DescribeRewrite(name: string, exitCommands: set<string>, patch: int, queryId: Option<string>)
    requires Lower("\\d+ " + name) !in exitCommands
    ensures Classify("\\d+ " + name, exitCommands, patch, queryId) == Send("DESCRIBE TABLE " + name)
  {
    var q := "\\d+ " + name;
    BackslashReachesExpand(q, exitCommands, patch, queryId);
    assert |q| >= 4;
    Differs(q, "\\dt", 2);
    assert StartsWith(q, "\\d+ ");
    assert q[4..] == name;
  }

  /** `\c NAME` switches to the database NAME: everything after the three-character prefix. */
  lemma UseRewrite(name: string, exitCommands: set<string>, patch: int, queryId: Option<string>)
    requires Lower("\\c " + name) !in exitCommands
    ensures Classify("\\c " + name, exitCommands, patch, queryId) == Send("USE " + name)
  {
    var q := "\\c " + name;
    BackslashReachesExpand(q, exitCommands, patch, queryId);
    Differs(q, "\\d", 1);
    Differs(q, "\\dt", 1);
    Differs(q, "\\d+ ", 1);
    Differs(q, "\\l", 1);
    assert StartsWith(q, "\\c ");
    assert q[3..] == name;
  }

  /**
   * Any statement starting with `\ps` becomes a `system.processes` query whose
   * row-count column is `read_rows` exactly from patch version 54115 on (and
   * `rows_read` before), and which leaves out the statement's own query id.
   */
  lemma ProcessesRewrite(rest: string, exitCommands: set<string>, patch: int, queryId: Option<string>)
    requires Lower("\\ps" + rest) !in exitCommands
    ensures Classify("\\ps" + rest, exitCommands, patch, queryId) == Send(ProcessesQuery(patch, queryId))
    ensures var sql := Classify("\\ps" + rest, exitCommands, patch, queryId).sql;
      && |sql| >= ProcessesColumnAt + 9
      && (sql[ProcessesColumnAt..ProcessesColumnAt + 9] == "read_rows" <==> patch >= ReadRowsSince)
      && (sql[ProcessesColumnAt..ProcessesColumnAt + 9] == "rows_read" <==> patch < ReadRowsSince)
      && EndsWith(sql, OwnQueryFilter(queryId))
  {
    var q := "\\ps" + rest;
    BackslashReachesExpand(q, exitCommands, patch, queryId);
    Differs(q, "\\d", 1);
    Differs(q, "\\dt", 1);
    Differs(q, "\\d+ ", 1);
    Differs(q, "\\l", 1);
    Differs(q, "\\c ", 1);
    assert StartsWith(q, "\\ps");
    assert Classify(q, exitCommands, patch, queryId) == Send(ProcessesQuery(patch, queryId));
    ProcessesQueryShape(patch, queryId);
  }

  /** The column the `\ps` query reads, and the clause that leaves out the caller's own query. */
  lemma ProcessesQueryShape(patch: int, queryId: Option<string>)
    ensures var sql := ProcessesQuery(patch, queryId);
      && |sql| >= ProcessesColumnAt + 9
      && (sql[ProcessesColumnAt..ProcessesColumnAt + 9] == "read_rows" <==> patch >= ReadRowsSince)
      && (sql[ProcessesColumnAt..ProcessesColumnAt + 9] == "rows_read" <==> patch < ReadRowsSince)
      && EndsWith(sql, OwnQueryFilter(queryId))
  {
    ProcessesColumnPlace(patch, queryId);
    ProcessesSuffix(patch, queryId);
    Differs("read_rows", "rows_read", 1);
  }

  lemma ProcessesColumnPlace(patch: int, queryId: Option<string>)
    ensures var sql := ProcessesQuery(patch, queryId);
      |sql| >= ProcessesColumnAt + 9 && sql[ProcessesColumnAt..ProcessesColumnAt + 9] == ProcessesColumn(patch)
  {
    var column := ProcessesColumn(patch);
    var rest := ProcessesTail + OwnQueryFilter(queryId);
    assert ProcessesQuery(patch, queryId) == ProcessesHead + column + rest;
    assert |ProcessesHead| == ProcessesColumnAt && |column| == 9;
    ConcatSlices(ProcessesHead, column, rest);
  }

  lemma ProcessesSuffix(patch: int, queryId: Option<string>)
    ensures EndsWith(ProcessesQuery(patch, queryId), OwnQueryFilter(queryId))
  {
    EndsWithConcat(ProcessesHead + ProcessesColumn(patch) + ProcessesTail, OwnQueryFilter(queryId));
  }

  /** `\kill ID` cancels ID, the text after the six-character prefix, and sends nothing. */
  lemma KillRewrite(id: string, exitCommands: set<string>, patch: int, queryId: Option<string>)
    requires Lower("\\kill " + id) !in exitCommands
    ensures Classify("\\kill " + id, exitCommands, patch, queryId) == Cancel(id)
  {
    var q := "\\kill " + id;
    BackslashReachesExpand(q, exitCommands, patch, queryId);
    Differs(q, "\\d", 1);
    Differs(q, "\\dt", 1);
    Differs(q, "\\d+ ", 1);
    Differs(q, "\\l", 1);
    Differs(q, "\\c ", 1);
    Differs(q, "\\ps", 1);
    assert StartsWith(q, "\\kill ");
    assert q[6..] == id;
  }

  /**
   * A statement that is not skipped, not an exit command, not a help request
   * and matches none of the shorthands is sent exactly as written: among
   * them unknown backslash commands such as `\dx`, a bare `\c`, or `\d+`
   * and `\kill` without their space.
   */
  lemma PassThrough(query: string, exitCommands: set<string>, patch: int, queryId: Option<string>)
    requires HasContent(query)
    requires Lower(query) !in exitCommands && Lower(query) != "help" && Lower(query) != "\\?"
    requires query != "\\d" && query != "\\dt" && query != "\\l"
    requires !StartsWith(query, "\\d+ ") && !StartsWith(query, "\\c ")
    requires !StartsWith(query, "\\ps") && !StartsWith(query, "\\kill ")
    ensures Classify(query, exitCommands, patch, queryId) == Send(query)
  {
    SkipIff(query, exitCommands, patch, queryId);
  }

  /** In particular, every such statement that does not start with a backslash is sent as written. */
  lemma PlainPassThrough(query: string, exitCommands: set<string>, patch: int, queryId: Option<string>)
    requires HasContent(query)
    requires query[0] != '\\'
    requires Lower(query) !in exitCommands && Lower(query) != "help"
    ensures Classify(query, exitCommands, patch, queryId) == Send(query)
  {
    assert Lower(query)[0] == LowerChar(query[0]);
    Differs(Lower(query), "\\?", 0);
    Differs(query, "\\d", 0);
    Differs(query, "\\dt", 0);
    Differs(query, "\\d+ ", 0);
    Differs(query, "\\l", 0);
    Differs(query, "\\c ", 0);
    Differs(query, "\\ps", 0);
    Differs(query, "\\kill ", 0);
    PassThrough(query, exitCommands, patch, queryId);
  }

  /** Only a statement of the form `\kill ID` leads to a cancel action. */
  lemma CancelOnlyFromKill(query: string, exitCommands: set<string>, patch: int, queryId: Option<string>)
    requires Classify(query, exitCommands, patch, queryId).Cancel?
    ensures StartsWith(query, "\\kill ")
    ensures query == "\\kill " + Classify(query, exitCommands, patch, queryId).id
  {
    ExpandCancels(query, patch, queryId);
  }

  lemma ExpandCancels(query: string, patch: int, queryId: Option<string>)
    ensures Expand(query, patch, queryId).Cancel? ==>
      StartsWith(query, "\\kill ") && query == "\\kill " + Expand(query, patch, queryId).id
  {
    if Expand(query, patch, queryId).Cancel? {
      assert query == query[..6] + query[6..];
    }
  }
}
