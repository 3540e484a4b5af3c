/**
 * The effect of handling statements, as values: which calls reach the client
 * and what is written, for one statement (`CLI.handle_query`), for the
 * statements of one input unit (`CLI.handle_input`), for one query fed with
 * each piped input in turn, and for the cancellation after an interrupt.
 */
module Dispatch {
  import opened Wrappers
  import opened Strings
  import opened Rewriter
  import opened Reporting
  import opened Modes

  /** One call the session makes on the client. */
  datatype Call = QueryCall(request: Request) | KillCall(id: string)

  /** The session settings a statement is handled with, and the help table `\?` prints. */
  datatype Context = Context(format: string, exitCommands: set<string>, patch: int, display: Display, help: seq<Emit>)

  /** What handling some statements does: the client calls, the output, and whether the session ends. */
  datatype Effect = Effect(calls: seq<Call>, out: seq<Emit>, quit: bool)

  const NoEffect := Effect([], [], false)

  /** The request `handle_query` sends for `sql`. */
  function RequestFor(ctx: Context, sql: string, data: Option<Item>, stream: bool, verbose: bool,
                      queryId: Option<string>, compress: Option<string>): Request {
    Request(sql, ctx.format, data, stream, verbose, queryId, compress)
  }

  /** What `handle_query` does once the rewriter has decided; `server` is how the server answers each request. */
  function ActionEffect(ctx: Context, server: Request -> Outcome, action: Action, data: Option<Item>,
                        stream: bool, verbose: bool, queryId: Option<string>, compress: Option<string>,
                        forcePager: bool): Effect {
    match action
    case Skip => NoEffect
    case Quit => Effect([], [], true)
    case ShowHelp => Effect([], ctx.help, false)
    case Cancel(id) => Effect([KillCall(id)], [], false)
    case Send(sql) =>
      var request := RequestFor(ctx, sql, data, stream, verbose, queryId, compress);
      Effect([QueryCall(request)], Report(sql, server(request), ctx.display, stream, verbose, forcePager), false)
  }

  /** `handle_query` for one statement. */
  function StatementEffect(ctx: Context, server: Request -> Outcome, query: string, data: Option<Item>,
                           stream: bool, verbose: bool, queryId: Option<string>, compress: Option<string>,
                           forcePager: bool): Effect {
    ActionEffect(ctx, server, Classify(query, ctx.exitCommands, ctx.patch, queryId), data, stream, verbose, queryId,
                 compress, forcePager)
  }

  /**
   * One statement makes at most one client call: a query carrying the
   * statement's own id exactly when the rewriter sends SQL, a kill exactly for
   * `\kill`; a statement of ';' only does nothing at all.
   */
  lemma StatementCalls(ctx: Context, server: Request -> Outcome, query: string, data: Option<Item>,
                       stream: bool, verbose: bool, queryId: Option<string>, compress: Option<string>,
                       forcePager: bool)
    ensures var e := StatementEffect(ctx, server, query, data, stream, verbose, queryId, compress, forcePager);
      var a := Classify(query, ctx.exitCommands, ctx.patch, queryId);
      && |e.calls| <= 1
      && (e.quit <==> a.Quit?)
      && (a.Send? <==> |e.calls| == 1 && e.calls[0].QueryCall?)
      && (a.Send? ==> e.calls[0].request.queryId == queryId && e.calls[0].request.query == a.sql)
      && (a.Cancel? <==> |e.calls| == 1 && e.calls[0].KillCall?)
      && (a.Cancel? ==> e.calls == [KillCall(a.id)] && e.out == [])
      && (!HasContent(query) ==> e == NoEffect)
  {
    SkipIff(query, ctx.exitCommands, ctx.patch, queryId);
  }

  /** `\kill X` makes exactly one call, `kill_query(X)`, writes nothing and sends no query. */
  lemma KillStatement(ctx: Context, server: Request -> Outcome, id: string, data: Option<Item>,
                      stream: bool, verbose: bool, queryId: Option<string>, compress: Option<string>,
                      forcePager: bool)
    requires Lower("\\kill " + id) !in ctx.exitCommands
    ensures StatementEffect(ctx, server, "\\kill " + id, data, stream, verbose, queryId, compress, forcePager)
      == Effect([KillCall(id)], [], false)
  {
    KillRewrite(id, ctx.exitCommands, ctx.patch, queryId);
  }

  /** A statement the rewriter sends makes exactly that one query and does not end the session. */
  lemma SentStatement(ctx: Context, server: Request -> Outcome, query: string, data: Option<Item>,
                      stream: bool, verbose: bool, queryId: Option<string>, compress: Option<string>,
                      forcePager: bool)
    requires Classify(query, ctx.exitCommands, ctx.patch, queryId).Send?
    ensures var e := StatementEffect(ctx, server, query, data, stream, verbose, queryId, compress, forcePager);
      var sql := Classify(query, ctx.exitCommands, ctx.patch, queryId).sql;
      !e.quit && e.calls == [QueryCall(RequestFor(ctx, sql, data, stream, verbose, queryId, compress))]
  {
  }

  /** The effect of `first` then `next`, where `next` only runs if `first` did not end the session. */
  function Then(first: Effect, next: Effect): Effect {
    if first.quit then first else Effect(first.calls + next.calls, first.out + next.out, next.quit)
  }

  /** After a first part that does not end the session, the second part's calls and output follow the first's. */
  lemma ThenAppends(calls: seq<Call>, out: seq<Emit>, first: Effect, next: Effect)
    requires !first.quit
    ensures calls + Then(first, next).calls == calls + first.calls + next.calls
    ensures out + Then(first, next).out == out + first.out + next.out
    ensures Then(first, next).quit == next.quit
  {
    assert calls + (first.calls + next.calls) == calls + first.calls + next.calls;
    assert out + (first.out + next.out) == out + first.out + next.out;
  }

  /**
   * The statements of one input unit, each handled with the query id at its
   * own position and the unit's pager flag, up to the first that ends the
   * session.
   */
  function UnitEffect(ctx: Context, server: Request -> Outcome, stmts: seq<string>, ids: seq<string>,
                      verbose: bool, forcePager: bool): Effect
    requires |stmts| == |ids|
  {
    if stmts == [] then NoEffect
    else
      var n := |stmts| - 1;
      Then(UnitEffect(ctx, server, stmts[..n], ids[..n], verbose, forcePager),
           StatementEffect(ctx, server, stmts[n], None, false, verbose, Some(ids[n]), None, forcePager))
  }

  /** Handling one more statement extends the unit's effect by that statement's. */
  lemma UnitEffectSnoc(ctx: Context, server: Request -> Outcome, stmts: seq<string>, ids: seq<string>,
                       s: string, id: string, verbose: bool, forcePager: bool)
    requires |stmts| == |ids|
    ensures UnitEffect(ctx, server, stmts + [s], ids + [id], verbose, forcePager)
      == Then(UnitEffect(ctx, server, stmts, ids, verbose, forcePager),
              StatementEffect(ctx, server, s, None, false, verbose, Some(id), None, forcePager))
  {
    assert (stmts + [s])[..|stmts|] == stmts;
    assert (ids + [id])[..|ids|] == ids;
  }

  /**
   * The step of `handle_input`'s loop: when the calls and output so far are
   * those of the first `i` statements (which did not end the session) followed
   * by those of statement `i`, they are those of the first `i + 1` statements.
   */
  lemma UnitStep(ctx: Context, server: Request -> Outcome, stmts: seq<string>, i: nat, ids: seq<string>, id: string,
                 verbose: bool, forcePager: bool, calls0: seq<Call>, out0: seq<Emit>, calls: seq<Call>, out: seq<Emit>)
    requires i < |stmts| && |ids| == i
    requires var prior := UnitEffect(ctx, server, stmts[..i], ids, verbose, forcePager);
      var e := StatementEffect(ctx, server, stmts[i], None, false, verbose, Some(id), None, forcePager);
      && !prior.quit
      && calls == calls0 + prior.calls + e.calls
      && out == out0 + prior.out + e.out
    ensures var after := UnitEffect(ctx, server, stmts[..i + 1], ids + [id], verbose, forcePager);
      var e := StatementEffect(ctx, server, stmts[i], None, false, verbose, Some(id), None, forcePager);
      && calls == calls0 + after.calls
      && out == out0 + after.out
      && after.quit == e.quit
  {
    var prior := UnitEffect(ctx, server, stmts[..i], ids, verbose, forcePager);
    var e := StatementEffect(ctx, server, stmts[i], None, false, verbose, Some(id), None, forcePager);
    assert stmts[..i + 1] == stmts[..i] + [stmts[i]];
    UnitEffectSnoc(ctx, server, stmts[..i], ids, stmts[i], id, verbose, forcePager);
    ThenAppends(calls0, out0, prior, e);
  }

  /** Every statement is sent to the server as SQL. */
  predicate AllSent(ctx: Context, stmts: seq<string>, ids: seq<string>)
    requires |stmts| == |ids|
  {
    forall j :: 0 <= j < |stmts| ==> Classify(stmts[j], ctx.exitCommands, ctx.patch, Some(ids[j])).Send?
  }

  /** The statements before position `n` of a unit of SQL statements are SQL too. */
  lemma AllSentPrefix(ctx: Context, stmts: seq<string>, ids: seq<string>, n: nat)
    requires |stmts| == |ids| && AllSent(ctx, stmts, ids) && n <= |stmts|
    ensures AllSent(ctx, stmts[..n], ids[..n])
  {
    forall j | 0 <= j < n
      ensures Classify(stmts[..n][j], ctx.exitCommands, ctx.patch, Some(ids[..n][j])).Send?
    {
      assert stmts[..n][j] == stmts[j] && ids[..n][j] == ids[j];
    }
  }

  /** The queries of a unit whose statements are all SQL: one per statement, in order, each with its own id. */
  function SentCalls(ctx: Context, stmts: seq<string>, ids: seq<string>, verbose: bool): seq<Call>
    requires |stmts| == |ids| && AllSent(ctx, stmts, ids)
  {
    if stmts == [] then []
    else
      var n := |stmts| - 1;
      AllSentPrefix(ctx, stmts, ids, n);
      SentCalls(ctx, stmts[..n], ids[..n], verbose)
        + [QueryCall(RequestFor(ctx, Classify(stmts[n], ctx.exitCommands, ctx.patch, Some(ids[n])).sql,
                                None, false, verbose, Some(ids[n]), None))]
  }

  /**
   * When every statement of a unit is SQL, the unit makes exactly one query
   * per statement, in statement order, the j-th carrying the j-th id and the
   * unit's pager flag's output choice.
   */
  lemma {:induction false} UnitQueries(ctx: Context, server: Request -> Outcome, stmts: seq<string>, ids: seq<string>,
                                       verbose: bool, forcePager: bool)
    requires |stmts| == |ids|
    requires AllSent(ctx, stmts, ids)
    ensures var e := UnitEffect(ctx, server, stmts, ids, verbose, forcePager);
      && !e.quit
      && |e.calls| == |stmts|
      && forall j :: 0 <= j < |stmts| ==>
           e.calls[j] == QueryCall(RequestFor(ctx, Classify(stmts[j], ctx.exitCommands, ctx.patch, Some(ids[j])).sql,
                                              None, false, verbose, Some(ids[j]), None))
  {
    UnitSentCalls(ctx, server, stmts, ids, verbose, forcePager);
    SentCallsShape(ctx, stmts, ids, verbose);
  }

  /** A unit of SQL statements makes exactly the calls of `SentCalls` and does not end the session. */
  lemma {:induction false} UnitSentCalls(ctx: Context, server: Request -> Outcome, stmts: seq<string>,
                                         ids: seq<string>, verbose: bool, forcePager: bool)
    requires |stmts| == |ids|
    requires AllSent(ctx, stmts, ids)
    ensures var e := UnitEffect(ctx, server, stmts, ids, verbose, forcePager);
      !e.quit && e.calls == SentCalls(ctx, stmts, ids, verbose)
  {
    if stmts != [] {
      var n := |stmts| - 1;
      AllSentPrefix(ctx, stmts, ids, n);
      UnitSentCalls(ctx, server, stmts[..n], ids[..n], verbose, forcePager);
      SentStatement(ctx, server, stmts[n], None, false, verbose, Some(ids[n]), None, forcePager);
    }
  }

  /** The j-th of `SentCalls` is the query of statement j with id j. */
  lemma {:induction false} SentCallsShape(ctx: Context, stmts: seq<string>, ids: seq<string>, verbose: bool)
    requires |stmts| == |ids| && AllSent(ctx, stmts, ids)
    ensures var c := SentCalls(ctx, stmts, ids, verbose);
      && |c| == |stmts|
      && forall j :: 0 <= j < |stmts| ==>
           c[j] == QueryCall(RequestFor(ctx, Classify(stmts[j], ctx.exitCommands, ctx.patch, Some(ids[j])).sql,
                                        None, false, verbose, Some(ids[j]), None))
  {
    if stmts != [] {
      var n := |stmts| - 1;
      AllSentPrefix(ctx, stmts, ids, n);
      SentCallsShape(ctx, stmts[..n], ids[..n], verbose);
      var c := SentCalls(ctx, stmts, ids, verbose);
      forall j | 0 <= j < n
        ensures c[j] == QueryCall(RequestFor(ctx, Classify(stmts[j], ctx.exitCommands, ctx.patch, Some(ids[j])).sql,
                                             None, false, verbose, Some(ids[j]), None))
      {
        assert stmts[..n][j] == stmts[j] && ids[..n][j] == ids[j];
      }
    }
  }

  /** A unit whose statements are all ';' only makes no call and writes nothing. */
  lemma {:induction false} EmptyStatementsDoNothing(ctx: Context, server: Request -> Outcome, stmts: seq<string>,
                                                    ids: seq<string>, verbose: bool, forcePager: bool)
    requires |stmts| == |ids|
    requires forall j :: 0 <= j < |stmts| ==> !HasContent(stmts[j])
    ensures UnitEffect(ctx, server, stmts, ids, verbose, forcePager) == NoEffect
  {
    if stmts != [] {
      var n := |stmts| - 1;
      EmptyStatementsDoNothing(ctx, server, stmts[..n], ids[..n], verbose, forcePager);
      StatementCalls(ctx, server, stmts[n], None, false, verbose, Some(ids[n]), None, forcePager);
    }
  }

  /** The same query fed with each piped input in turn, streamed, compressed by file name. */
  function IngestEffect(ctx: Context, server: Request -> Outcome, query: string, items: seq<Item>): Effect {
    if items == [] then NoEffect
    else
      var n := |items| - 1;
      Then(IngestEffect(ctx, server, query, items[..n]),
           StatementEffect(ctx, server, query, Some(items[n]), true, false, None, Compression(items[n].name), false))
  }

  /** The step of the ingest loop: the effect of the first `i` inputs followed by input `i`'s is that of the first `i + 1`. */
  lemma IngestStep(ctx: Context, server: Request -> Outcome, query: string, items: seq<Item>, i: nat,
                   calls0: seq<Call>, out0: seq<Emit>, calls: seq<Call>, out: seq<Emit>)
    requires i < |items|
    requires var prior := IngestEffect(ctx, server, query, items[..i]);
      var e := StatementEffect(ctx, server, query, Some(items[i]), true, false, None, Compression(items[i].name), false);
      && !prior.quit
      && calls == calls0 + prior.calls + e.calls
      && out == out0 + prior.out + e.out
    ensures var after := IngestEffect(ctx, server, query, items[..i + 1]);
      var e := StatementEffect(ctx, server, query, Some(items[i]), true, false, None, Compression(items[i].name), false);
      && calls == calls0 + after.calls
      && out == out0 + after.out
      && after.quit == e.quit
  {
    var prior := IngestEffect(ctx, server, query, items[..i]);
    var e := StatementEffect(ctx, server, query, Some(items[i]), true, false, None, Compression(items[i].name), false);
    assert items[..i + 1][..i] == items[..i];
    ThenAppends(calls0, out0, prior, e);
  }

  /**
   * The queries an ingest sends for `sql`: one per input, in input order,
   * each streamed, carrying that input and gzip compression exactly for a
   * `.gz` name.
   */
  function IngestCalls(ctx: Context, sql: string, items: seq<Item>): (r: seq<Call>)
    ensures |r| == |items|
    ensures forall j :: 0 <= j < |items| ==>
      r[j] == QueryCall(RequestFor(ctx, sql, Some(items[j]), true, false, None, Compression(items[j].name)))
  {
    if items == [] then []
    else
      var n := |items| - 1;
      IngestCalls(ctx, sql, items[..n])
        + [QueryCall(RequestFor(ctx, sql, Some(items[n]), true, false, None, Compression(items[n].name)))]
  }

  /** Ingesting a query the rewriter sends makes exactly the calls `IngestCalls` lists and never ends the session. */
  lemma {:induction false} IngestQueries(ctx: Context, server: Request -> Outcome, query: string, items: seq<Item>)
    requires Classify(query, ctx.exitCommands, ctx.patch, None).Send?
    ensures var e := IngestEffect(ctx, server, query, items);
      && !e.quit
      && e.calls == IngestCalls(ctx, Classify(query, ctx.exitCommands, ctx.patch, None).sql, items)
  {
    if items != [] {
      IngestQueries(ctx, server, query, items[..|items| - 1]);
      IngestSnoc(ctx, server, query, items);
    }
  }

  /** Ingesting one more input appends that input's one query to those of the inputs before it. */
  lemma IngestSnoc(ctx: Context, server: Request -> Outcome, query: string, items: seq<Item>)
    requires items != [] && Classify(query, ctx.exitCommands, ctx.patch, None).Send?
    requires !IngestEffect(ctx, server, query, items[..|items| - 1]).quit
    ensures var n := |items| - 1;
      var e := IngestEffect(ctx, server, query, items);
      && !e.quit
      && e.calls == IngestEffect(ctx, server, query, items[..n]).calls
                    + [QueryCall(RequestFor(ctx, Classify(query, ctx.exitCommands, ctx.patch, None).sql,
                                            Some(items[n]), true, false, None, Compression(items[n].name)))]
  {
    var n := |items| - 1;
    SentStatement(ctx, server, query, Some(items[n]), true, false, None, Compression(items[n].name), false);
  }

  /** One kill request per id, in order. */
  function KillCalls(ids: seq<string>): (r: seq<Call>)
    ensures |r| == |ids|
    ensures forall j :: 0 <= j < |ids| ==> r[j] == KillCall(ids[j])
  {
    if ids == [] then [] else KillCalls(ids[..|ids| - 1]) + [KillCall(ids[|ids| - 1])]
  }

  /** The `\p` pager marker at the end of an input unit. */
  predicate ForcesPager(text: string) {
    EndsWith(text, "\\p")
  }

  /** The unit's text with the pager marker removed. */
  function Body(text: string): (r: string)
    ensures ForcesPager(text) ==> r + "\\p" == text
    ensures !ForcesPager(text) ==> r == text
  {
    if ForcesPager(text) then text[..|text| - 2] else text
  }

  /** How handling one input unit ended. */
  datatype UnitEnd =
    | Finished      // every statement was handled
    | Interrupted   // KeyboardInterrupt while a statement was being handled
    | Ended         // an exit command: EOFError

  /** One turn of the interactive shell. */
  datatype Event =
    | Submit(text: string, interruptAt: Option<nat>)   // a unit typed; interrupted at that statement, if any
    | PromptInterrupt                                  // Ctrl-C at the prompt
    | EndOfInput                                       // Ctrl-D at the prompt

  /**
   * What handling the statements `stmts` of one unit did, when it ended with
   * `end` after tracking the ids `tracked`, one per statement reached: the
   * statements before the interrupted one (or all reached, otherwise) were
   * handled in order, turning the call log `log0` into `log` and the output
   * `echo0` into `echo`; the unit stopped early only on an exit command or at
   * the statement where the interrupt came.
   */
  ghost predicate UnitOutcome(ctx: Context, server: Request -> Outcome, stmts: seq<string>, verbose: bool,
                              forcePager: bool, interruptAt: Option<nat>, end: UnitEnd, tracked: seq<string>,
                              log0: seq<Call>, log: seq<Call>, echo0: seq<Emit>, echo: seq<Emit>)
  {
    && UnitReach(stmts, interruptAt, end, tracked)
    && UnitHandled(ctx, server, stmts, verbose, forcePager, end, tracked, log0, log, echo0, echo)
  }

  /** The number of statements of a unit that were handled: all reached but the interrupted one. */
  function Handled(end: UnitEnd, tracked: seq<string>): int {
    if end == Interrupted then |tracked| - 1 else |tracked|
  }

  /**
   * How far a unit got: one id per statement reached, all of them when it
   * finished, up to the interrupted statement when interrupted, and short of
   * the interrupt otherwise.
   */
  ghost predicate UnitReach(stmts: seq<string>, interruptAt: Option<nat>, end: UnitEnd, tracked: seq<string>) {
    && 0 <= Handled(end, tracked) <= |tracked| <= |stmts|
    && (end == Finished ==> |tracked| == |stmts|)
    && (end == Interrupted ==> interruptAt == Some(Handled(end, tracked)))
    && (end != Interrupted ==> interruptAt.None? || interruptAt.value >= |tracked|)
  }

  /**
   * The statements handled ran in order under their tracked ids, turning
   * `log0` into `log` and `echo0` into `echo`; the unit ended the session
   * exactly when the last of them was an exit command, none before it.
   */
  ghost predicate UnitHandled(ctx: Context, server: Request -> Outcome, stmts: seq<string>, verbose: bool,
                              forcePager: bool, end: UnitEnd, tracked: seq<string>,
                              log0: seq<Call>, log: seq<Call>, echo0: seq<Emit>, echo: seq<Emit>)
    requires 0 <= Handled(end, tracked) <= |tracked| <= |stmts|
  {
    var handled := Handled(end, tracked);
    var e := UnitEffect(ctx, server, stmts[..handled], tracked[..handled], verbose, forcePager);
    && log == log0 + e.calls
    && echo == echo0 + e.out
    && (end == Ended <==> e.quit)
    && (end == Ended ==>
          handled >= 1 && !UnitEffect(ctx, server, stmts[..handled - 1], tracked[..handled - 1], verbose, forcePager).quit)
  }

  /** A unit all of whose statements ran without ending the session has finished. */
  lemma FinishedOutcome(ctx: Context, server: Request -> Outcome, stmts: seq<string>, verbose: bool,
                        forcePager: bool, interruptAt: Option<nat>, tracked: seq<string>,
                        log0: seq<Call>, log: seq<Call>, echo0: seq<Emit>, echo: seq<Emit>)
    requires |tracked| == |stmts|
    requires interruptAt.None? || interruptAt.value >= |tracked|
    requires var e := UnitEffect(ctx, server, stmts, tracked, verbose, forcePager);
      log == log0 + e.calls && echo == echo0 + e.out && !e.quit
    ensures UnitOutcome(ctx, server, stmts, verbose, forcePager, interruptAt, Finished, tracked, log0, log, echo0, echo)
  {
    TakeAll(stmts);
    TakeAll(tracked);
  }

  /** A unit whose statement `i`, and none before it, ended the session has ended after tracking `i + 1` ids. */
  lemma EndedOutcome(ctx: Context, server: Request -> Outcome, stmts: seq<string>, verbose: bool,
                     forcePager: bool, interruptAt: Option<nat>, i: nat, tracked: seq<string>,
                     log0: seq<Call>, log: seq<Call>, echo0: seq<Emit>, echo: seq<Emit>)
    requires i < |stmts| && |tracked| == i + 1
    requires interruptAt.None? || interruptAt.value > i
    requires var e := UnitEffect(ctx, server, stmts[..i + 1], tracked, verbose, forcePager);
      log == log0 + e.calls && echo == echo0 + e.out && e.quit
    requires !UnitEffect(ctx, server, stmts[..i], tracked[..i], verbose, forcePager).quit
    ensures UnitOutcome(ctx, server, stmts, verbose, forcePager, interruptAt, Ended, tracked, log0, log, echo0, echo)
  {
    assert Handled(Ended, tracked) == i + 1;
    TakeAll(tracked);
  }

  /** A unit interrupted once the id of statement `i` was tracked, before that statement ran. */
  lemma InterruptedOutcome(ctx: Context, server: Request -> Outcome, stmts: seq<string>, verbose: bool,
                           forcePager: bool, interruptAt: Option<nat>, i: nat, tracked: seq<string>,
                           log0: seq<Call>, log: seq<Call>, echo0: seq<Emit>, echo: seq<Emit>)
    requires i < |stmts| && |tracked| == i + 1
    requires interruptAt == Some(i)
    requires var e := UnitEffect(ctx, server, stmts[..i], tracked[..i], verbose, forcePager);
      log == log0 + e.calls && echo == echo0 + e.out && !e.quit
    ensures UnitOutcome(ctx, server, stmts, verbose, forcePager, interruptAt, Interrupted, tracked, log0, log, echo0, echo)
  {
    assert Handled(Interrupted, tracked) == i;
  }

  /** The statement is an exit command: it has content and, lower-cased, is one of `exitCommands`. */
  predicate IsExit(exitCommands: set<string>, query: string) {
    HasContent(query) && Lower(query) in exitCommands
  }

  /** Some statement of the unit before the interrupt point, if any, is an exit command. */
  predicate UnitExits(exitCommands: set<string>, stmts: seq<string>, interruptAt: Option<nat>) {
    exists j :: 0 <= j < |stmts| && (interruptAt.None? || j < interruptAt.value) && IsExit(exitCommands, stmts[j])
  }

  /** The first `n` statements of a unit end the session exactly when one of them is an exit command. */
  /** The first `n` statements of a unit end the session when the first `n - 1` do or the last of them is an exit command. */
  lemma UnitQuitStep(ctx: Context, server: Request -> Outcome, stmts: seq<string>, ids: seq<string>,
                     n: nat, verbose: bool, forcePager: bool)
    requires 0 < n <= |stmts| == |ids|
    ensures UnitEffect(ctx, server, stmts[..n], ids[..n], verbose, forcePager).quit
      == (UnitEffect(ctx, server, stmts[..n - 1], ids[..n - 1], verbose, forcePager).quit
          || IsExit(ctx.exitCommands, stmts[n - 1]))
  {
    assert stmts[..n][..n - 1] == stmts[..n - 1] && ids[..n][..n - 1] == ids[..n - 1];
    assert stmts[..n][n - 1] == stmts[n - 1] && ids[..n][n - 1] == ids[n - 1];
    StatementCalls(ctx, server, stmts[n - 1], None, false, verbose, Some(ids[n - 1]), None, forcePager);
    QuitIff(stmts[n - 1], ctx.exitCommands, ctx.patch, Some(ids[n - 1]));
  }

  /** One of the first `n` statements is an exit command, found by looking at them one by one. */
  predicate ExitsBefore(exitCommands: set<string>, stmts: seq<string>, n: nat)
    requires n <= |stmts|
  {
    n > 0 && (ExitsBefore(exitCommands, stmts, n - 1) || IsExit(exitCommands, stmts[n - 1]))
  }

  /** Looking one by one finds an exit command among the first `n` statements exactly when there is one. */
  lemma {:induction false} ExitsBeforeIff(exitCommands: set<string>, stmts: seq<string>, n: nat)
    requires n <= |stmts|
    ensures ExitsBefore(exitCommands, stmts, n) <==> exists j :: 0 <= j < n && IsExit(exitCommands, stmts[j])
  {
    if n > 0 {
      ExitsBeforeIff(exitCommands, stmts, n - 1);
      if IsExit(exitCommands, stmts[n - 1]) {
        assert 0 <= n - 1 < n;
      }
    }
  }

  /** The first `n` statements of a unit end the session exactly when one of them is an exit command. */
  lemma {:induction false} UnitQuitIff(ctx: Context, server: Request -> Outcome, stmts: seq<string>, ids: seq<string>,
                                       n: nat, verbose: bool, forcePager: bool)
    requires n <= |stmts| == |ids|
    ensures UnitEffect(ctx, server, stmts[..n], ids[..n], verbose, forcePager).quit
      == ExitsBefore(ctx.exitCommands, stmts, n)
  {
    if n > 0 {
      UnitQuitIff(ctx, server, stmts, ids, n - 1, verbose, forcePager);
      UnitQuitStep(ctx, server, stmts, ids, n, verbose, forcePager);
    } else {
      assert stmts[..0] == [];
    }
  }

  /**
   * A unit ends the session exactly when one of its statements before the
   * interrupt point is an exit command; otherwise it finishes or is
   * interrupted.
   */
  lemma EndedIff(ctx: Context, server: Request -> Outcome, stmts: seq<string>, verbose: bool,
                 forcePager: bool, interruptAt: Option<nat>, end: UnitEnd, tracked: seq<string>,
                 log0: seq<Call>, log: seq<Call>, echo0: seq<Emit>, echo: seq<Emit>)
    requires UnitOutcome(ctx, server, stmts, verbose, forcePager, interruptAt, end, tracked, log0, log, echo0, echo)
    ensures end == Ended <==> UnitExits(ctx.exitCommands, stmts, interruptAt)
  {
    var h := Handled(end, tracked);
    var ids := tracked + seq(|stmts| - |tracked|, _ => "");
    assert ids[..h] == tracked[..h];
    UnitQuitIff(ctx, server, stmts, ids, h, verbose, forcePager);
    ExitsBeforeIff(ctx.exitCommands, stmts, h);
  }
}
