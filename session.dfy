/**
 * The `CLI` object: its configuration fields, the connection it opens, the
 * list of query ids it tracks for the statements of the current input unit,
 * and the loops that feed it statements (one input unit, the piped inputs,
 * the interactive shell with its interrupt and end-of-input handling).
 */
module Session {
  import opened Wrappers
  import opened Strings
  import opened Numerals
  import opened Rewriter
  import opened Reporting
  import opened Configuration
  import opened Probe
  import opened Modes
  import opened Dispatch

  /**
   * The HTTP client as the session sees it: the connection values it was
   * built with, and every call made on it. `server` says how the server
   * answers each request.
   */
  class Client {
    const url: string
    const user: string
    const password: string
    const database: string
    var settings: map<string, string>
    const stacktrace: bool
    const timeout: real
    const timeoutRetry: int
    const timeoutRetryDelay: real
    const server: Request -> Outcome
    /** Every call made on this client, in order. */
    ghost var log: seq<Call>

    constructor(url: string, user: string, password: string, database: string, settings: map<string, string>,
                stacktrace: bool, timeout: real, timeoutRetry: int, timeoutRetryDelay: real,
                server: Request -> Outcome)
      ensures this.url == url && this.user == user && this.password == password && this.database == database
      ensures this.settings == settings && this.stacktrace == stacktrace
      ensures this.timeout == timeout && this.timeoutRetry == timeoutRetry && this.timeoutRetryDelay == timeoutRetryDelay
      ensures this.server == server && log == []
    {
      this.url := url;
      this.user := user;
      this.password := password;
      this.database := database;
      this.settings := settings;
      this.stacktrace := stacktrace;
      this.timeout := timeout;
      this.timeoutRetry := timeoutRetry;
      this.timeoutRetryDelay := timeoutRetryDelay;
      this.server := server;
      log := [];
    }

    /** `Client.query`: the request is recorded and answered. */
    method Query(request: Request) returns (outcome: Outcome)
      modifies this`log
      ensures log == old(log) + [QueryCall(request)]
      ensures outcome == server(request)
    {
      log := log + [QueryCall(request)];
      outcome := server(request);
    }

    /** `Client.kill_query`: the cancellation is recorded. */
    method KillQuery(id: string)
      modifies this`log
      ensures log == old(log) + [KillCall(id)]
    {
      log := log + [KillCall(id)];
    }
  }

  /**
   * The source of query ids (`str(uuid4())`). The id of the n-th draw is the
   * decimal numeral of n, so ids of different draws differ.
   */
  class IdSupply {
    /** How many ids were drawn. */
    var drawn: nat

    constructor()
      ensures drawn == 0
    {
      drawn := 0;
    }

    method Fresh() returns (id: string)
      modifies this
      ensures id == Decimal(old(drawn)) && drawn == old(drawn) + 1
    {
      id := Decimal(drawn);
      drawn := drawn + 1;
    }
  }

  /** No value occurs twice. */
  predicate Distinct(s: seq<string>) {
    forall i, j :: 0 <= i < j < |s| ==> s[i] != s[j]
  }

  /** The ids of draws `base`, `base + 1`, ...: no two alike, and none drawn before `base`. */
  predicate DrawnFrom(s: seq<string>, base: nat) {
    forall j :: 0 <= j < |s| ==> s[j] == Decimal(base + j)
  }

  lemma DrawnSnoc(s: seq<string>, base: nat, id: string)
    requires DrawnFrom(s, base) && id == Decimal(base + |s|)
    ensures DrawnFrom(s + [id], base)
  {
  }

  /** Ids drawn in a row are pairwise distinct and differ from every id drawn earlier. */
  lemma FreshIds(s: seq<string>, base: nat)
    requires DrawnFrom(s, base)
    ensures Distinct(s)
    ensures forall k :: 0 <= k < base ==> Decimal(k) !in s
  {
    forall i, j | 0 <= i < j < |s| ensures s[i] != s[j] {
      if s[i] == s[j] {
        DecimalInjective(base + i, base + j);
      }
    }
    forall k | 0 <= k < base ensures Decimal(k) !in s {
      if Decimal(k) in s {
        var j :| 0 <= j < |s| && s[j] == Decimal(k);
        DecimalInjective(k, base + j);
      }
    }
  }

  /** `'{}'.format(port)`: the number in decimal, or the text as read from the file. */
  function PortShown(p: Port): string {
    match p
    case PortNumber(n) => IntText(n)
    case PortText(t) => t
  }

  /** The version probe `connect` sends. */
  const ProbeRequest := Request("SELECT version();", "TabSeparated", None, false, false, None, None)

  const TerminatedText := "\nQuery was terminated."
  const ByeText := "Bye."

  class Cli {
    // Given on the command line, then resolved by `LoadConfig`.
    var host: string
    var port: Port
    var user: string
    var password: string
    var database: string
    var settings: map<string, string>
    var format: string
    var formatStdin: string
    var multiline: bool
    const stacktrace: bool

    // Read from the configuration by `LoadConfig`.
    var config: Option<Config>
    var showFormattedQuery: bool
    var highlight: bool
    var highlightOutput: bool
    var connTimeout: real
    var connTimeoutRetry: int
    var connTimeoutRetryDelay: real

    // The connection.
    var url: string
    var client: Client?
    var serverVersion: Option<Version>

    /** The ids of the statements of the input unit being handled, in order. */
    var queryIds: seq<string>

    // The `Echo` settings, and everything written so far.
    var verbose: bool
    var colors: bool
    var echo: seq<Emit>

    /** How many times the completion metadata was refreshed. */
    ghost var refreshes: nat

    const ids: IdSupply
    const server: Request -> Outcome
    /** `sqlparse.split`: the statements of an input unit. */
    const split: string -> seq<string>
    const exitCommands: set<string>
    const prettyFormats: set<string>
    /** The package version shown in the banner. */
    const packageVersion: string
    /** The help table of `handle_query`, fixed for the session. */
    const help: seq<Emit>

    /**
     * A new session from the command-line values; an absent value is passed
     * as the empty string, an absent port as 0, and `settings` already parsed.
     */
    constructor(host: string, port: int, user: string, password: string, database: string,
                settings: map<string, string>, format: string, formatStdin: string, multiline: bool,
                stacktrace: bool, server: Request -> Outcome, split: string -> seq<string>,
                exitCommands: set<string>, prettyFormats: set<string>, packageVersion: string)
      ensures this.host == host && this.port == PortNumber(port) && this.user == user
      ensures this.password == password && this.database == database && this.settings == settings
      ensures this.format == format && this.formatStdin == formatStdin && this.multiline == multiline
      ensures this.stacktrace == stacktrace && this.server == server && this.split == split
      ensures this.exitCommands == exitCommands && this.prettyFormats == prettyFormats
      ensures this.packageVersion == packageVersion && help == HelpTable()
      ensures config.None? && serverVersion.None? && client == null && queryIds == []
      ensures verbose && colors && echo == [] && refreshes == 0
      ensures fresh(ids) && ids.drawn == 0
    {
      this.host := host;
      this.port := PortNumber(port);
      this.user := user;
      this.password := password;
      this.database := database;
      this.settings := settings;
      this.format := format;
      this.formatStdin := formatStdin;
      this.multiline := multiline;
      this.stacktrace := stacktrace;
      this.server := server;
      this.split := split;
      this.exitCommands := exitCommands;
      this.prettyFormats := prettyFormats;
      this.packageVersion := packageVersion;
      help := HelpTable();
      config := None;
      serverVersion := None;
      client := null;
      queryIds := [];
      verbose := true;
      colors := true;
      echo := [];
      refreshes := 0;
      ids := new IdSupply();
    }

    /** The connection values as one record. */
    function CurrentTarget(): Target
      reads this`host, this`port, this`user, this`password, this`database
    {
      Target(host, port, user, password, database)
    }

    /** The settings statements are handled with, once configured and connected. */
    function Ctx(): Context
      reads this`format, this`serverVersion, this`config, this`highlight, this`highlightOutput
      requires serverVersion.Some? && config.Some?
    {
      Context(format, exitCommands, serverVersion.value.patch,
              Display(stacktrace, config.value.pager, highlight, highlightOutput, config.value.timing, prettyFormats),
              help)
    }

    /** Configured and connected: statements can be handled. */
    ghost predicate Ready()
      reads this`client, this`serverVersion, this`config
    {
      client != null && client.server == server && serverVersion.Some? && config.Some?
    }

    /**
     * `load_config`: the file's switches and timeouts are taken as they are;
     * the formats fall back from the command line to the file; host, port,
     * user, password and database fall back from the command line to the file
     * to the defaults; the command line's settings are laid over the file's.
     */
    method LoadConfig(cfg: Config)
      requires port.PortNumber?
      modifies this`config, this`multiline, this`format, this`formatStdin, this`showFormattedQuery,
               this`highlight, this`highlightOutput, this`connTimeout, this`connTimeoutRetry,
               this`connTimeoutRetryDelay, this`host, this`port, this`user, this`password, this`database,
               this`settings, this`colors
      ensures config == Some(cfg) && multiline == cfg.multiline
      ensures format == Or(old(format), cfg.format)
      ensures formatStdin == Or(old(formatStdin), cfg.formatStdin)
      ensures showFormattedQuery == cfg.showFormattedQuery
      ensures highlight == cfg.highlight && highlightOutput == cfg.highlightOutput
      ensures connTimeout == cfg.connTimeout && connTimeoutRetry == cfg.connTimeoutRetry
      ensures connTimeoutRetryDelay == cfg.connTimeoutRetryDelay
      ensures CurrentTarget() == ResolveTarget(old(CurrentTarget()), cfg)
      ensures settings == MergeSettings(cfg.settings, old(settings))
      ensures colors == cfg.highlight
    {
      ReadOptions(cfg);
      ResolveConnection(cfg);
    }

    /** The first half of `load_config`: the configuration read, its switches and timeouts, and the two formats. */
    method ReadOptions(cfg: Config)
      modifies this`config, this`multiline, this`format, this`formatStdin, this`showFormattedQuery,
               this`highlight, this`highlightOutput, this`connTimeout, this`connTimeoutRetry,
               this`connTimeoutRetryDelay
      ensures config == Some(cfg) && multiline == cfg.multiline
      ensures format == Or(old(format), cfg.format)
      ensures formatStdin == Or(old(formatStdin), cfg.formatStdin)
      ensures showFormattedQuery == cfg.showFormattedQuery
      ensures highlight == cfg.highlight && highlightOutput == cfg.highlightOutput
      ensures connTimeout == cfg.connTimeout && connTimeoutRetry == cfg.connTimeoutRetry
      ensures connTimeoutRetryDelay == cfg.connTimeoutRetryDelay
    {
      config := Some(cfg);
      multiline := cfg.multiline;
      format := Or(format, cfg.format);
      formatStdin := Or(formatStdin, cfg.formatStdin);
      showFormattedQuery := cfg.showFormattedQuery;
      highlight := cfg.highlight;
      highlightOutput := cfg.highlightOutput;
      connTimeout := cfg.connTimeout;
      connTimeoutRetry := cfg.connTimeoutRetry;
      connTimeoutRetryDelay := cfg.connTimeoutRetryDelay;
    }

    /** The second half of `load_config`: the connection values, the settings and the output colouring. */
    method ResolveConnection(cfg: Config)
      requires port.PortNumber?
      modifies this`host, this`port, this`user, this`password, this`database, this`settings, this`colors
      ensures CurrentTarget() == ResolveTarget(old(CurrentTarget()), cfg)
      ensures settings == MergeSettings(cfg.settings, old(settings))
      ensures colors == highlight
    {
      var target := ResolveTarget(CurrentTarget(), cfg);
      host := target.host;
      port := target.port;
      user := target.user;
      password := target.password;
      database := target.database;
      settings := MergeSettings(cfg.settings, settings);
      colors := highlight;
    }

    /**
     * `connect`: a new client for the resolved connection values, the
     * `Connecting to` line, then the version probe; the server version is
     * recorded only when the probe's answer parses.
     */
    method Connect() returns (status: Connection)
      requires config.Some?
      modifies this`url, this`client, this`echo, this`serverVersion
      ensures url == "http://" + host + ":" + PortShown(port) + "/"
      ensures fresh(client) && ClientFor(client)
      ensures client.log == [QueryCall(ProbeRequest)]
      ensures status == ProbeReport(server(ProbeRequest), stacktrace).0
      ensures echo == old(echo) + [Note("Connecting to " + host + ":" + PortShown(port))]
                                + ProbeReport(server(ProbeRequest), stacktrace).1
      ensures serverVersion == if status.Connected? then Some(status.version) else old(serverVersion)
    {
      OpenClient();
      status := Probe();
    }

    /** The client carries the session's connection values. */
    ghost predicate ClientFor(c: Client)
      reads this`url, this`user, this`password, this`database, this`settings, this`connTimeout,
            this`connTimeoutRetry, this`connTimeoutRetryDelay, c`settings
    {
      && c.url == url && c.user == user && c.password == password && c.database == database
      && c.settings == settings && c.stacktrace == stacktrace && c.timeout == connTimeout
      && c.timeoutRetry == connTimeoutRetry && c.timeoutRetryDelay == connTimeoutRetryDelay
      && c.server == server
    }

    /** The first half of `connect`: the URL, the client and the `Connecting to` line. */
    method OpenClient()
      modifies this`url, this`client, this`echo
      ensures url == "http://" + host + ":" + PortShown(port) + "/"
      ensures fresh(client) && ClientFor(client) && client.log == []
      ensures echo == old(echo) + [Note("Connecting to " + host + ":" + PortShown(port))]
    {
      url := "http://" + host + ":" + PortShown(port) + "/";
      client := new Client(url, user, password, database, settings, stacktrace,
                           connTimeout, connTimeoutRetry, connTimeoutRetryDelay, server);
      echo := echo + [Note("Connecting to " + host + ":" + PortShown(port))];
    }

    /** The second half of `connect`: the version probe and what its answer leads to. */
    method Probe() returns (status: Connection)
      requires client != null && client.server == server
      modifies this`echo, this`serverVersion, client`log
      ensures client.log == old(client.log) + [QueryCall(ProbeRequest)]
      ensures status == ProbeReport(server(ProbeRequest), stacktrace).0
      ensures echo == old(echo) + ProbeReport(server(ProbeRequest), stacktrace).1
      ensures serverVersion == if status.Connected? then Some(status.version) else old(serverVersion)
    {
      var outcome := client.Query(ProbeRequest);
      var report := ProbeReport(outcome, stacktrace);
      echo := echo + report.1;
      if report.0.Connected? {
        serverVersion := Some(report.0.version);
      }
      status := report.0;
    }

    /**
     * `handle_query` for one statement: the rewriter's decision, then at most
     * one client call and its report. Returns whether the statement ends the
     * session (the source raises `EOFError`).
     */
    method HandleQuery(query: string, data: Option<Item>, stream: bool, verbose: bool, queryId: Option<string>,
                       compress: Option<string>, forcePager: bool) returns (quit: bool)
      requires Ready()
      modifies this`echo, client`log
      ensures var e := StatementEffect(Ctx(), server, query, data, stream, verbose, queryId, compress, forcePager);
        && client.log == old(client.log) + e.calls
        && echo == old(echo) + e.out
        && quit == e.quit
    {
      var action := Classify(query, exitCommands, Ctx().patch, queryId);
      quit := Perform(action, data, stream, verbose, queryId, compress, forcePager);
    }

    /** The second half of `handle_query`: what the rewriter's decision leads to. */
    method Perform(action: Action, data: Option<Item>, stream: bool, verbose: bool, queryId: Option<string>,
                   compress: Option<string>, forcePager: bool) returns (quit: bool)
      requires Ready()
      modifies this`echo, client`log
      ensures var e := ActionEffect(Ctx(), server, action, data, stream, verbose, queryId, compress, forcePager);
        && client.log == old(client.log) + e.calls
        && echo == old(echo) + e.out
        && quit == e.quit
    {
      match action
      case Skip =>
        quit := false;
      case Quit =>
        quit := true;
      case ShowHelp =>
        echo := echo + help;
        quit := false;
      case Cancel(id) =>
        client.KillQuery(id);
        quit := false;
      case Send(sql) =>
        var ctx := Ctx();
        var request := RequestFor(ctx, sql, data, stream, verbose, queryId, compress);
        var outcome := client.Query(request);
        echo := echo + Report(sql, outcome, ctx.display, stream, verbose, forcePager);
        quit := false;
    }

    /**
     * `handle_input`: the `\p` marker is cut off, the tracked ids are reset,
     * and each statement gets a fresh id, appended before the statement is
     * handled. `interruptAt`, when present, is the statement during which
     * Ctrl-C arrives (right after its id was tracked); the unit stops there.
     * The metadata is refreshed after a completed unit when asked and the
     * unit was not empty.
     */
    method HandleInput(text: string, verbose: bool, refreshMetadata: bool, interruptAt: Option<nat>)
      returns (end: UnitEnd)
      requires Ready()
      modifies this`queryIds, this`echo, this`refreshes, client`log, ids
      ensures Ready()
      ensures ids.drawn == old(ids.drawn) + |queryIds| && DrawnFrom(queryIds, old(ids.drawn))
      ensures UnitOutcome(Ctx(), server, split(Body(text)), verbose, ForcesPager(text), interruptAt, end, queryIds,
                          old(client.log), client.log, old(echo), echo)
      ensures refreshes == old(refreshes) + if end == Finished && refreshMetadata && |Body(text)| > 0 then 1 else 0
    {
      queryIds := [];
      end := HandleStatements(split(Body(text)), verbose, ForcesPager(text), interruptAt);
      if end == Finished && refreshMetadata && |Body(text)| > 0 {
        refreshes := refreshes + 1;
      }
    }

    /** The loop of `handle_input` over the statements of one unit, starting with no id tracked. */
    method HandleStatements(stmts: seq<string>, verbose: bool, forcePager: bool, interruptAt: Option<nat>)
      returns (end: UnitEnd)
      requires Ready() && queryIds == []
      modifies this`queryIds, this`echo, client`log, ids
      ensures Ready()
      ensures ids.drawn == old(ids.drawn) + |queryIds| && DrawnFrom(queryIds, old(ids.drawn))
      ensures UnitOutcome(Ctx(), server, stmts, verbose, forcePager, interruptAt, end, queryIds,
                          old(client.log), client.log, old(echo), echo)
    {
      ghost var ctx := Ctx();
      var i := 0;
      while i < |stmts|
        invariant 0 <= i <= |stmts| && |queryIds| == i
        invariant Ready() && Ctx() == ctx
        invariant ids.drawn == old(ids.drawn) + i && DrawnFrom(queryIds, old(ids.drawn))
        invariant interruptAt.None? || interruptAt.value >= i
        invariant var e := UnitEffect(ctx, server, stmts[..i], queryIds, verbose, forcePager);
          client.log == old(client.log) + e.calls && echo == old(echo) + e.out && !e.quit
      {
        var stop;
        stop, end := HandleNext(stmts, i, verbose, forcePager, interruptAt, ctx, old(client.log), old(echo), old(ids.drawn));
        if stop {
          return;
        }
        i := i + 1;
      }
      TakeAll(stmts);
      FinishedOutcome(ctx, server, stmts, verbose, forcePager, interruptAt, queryIds,
                      old(client.log), client.log, old(echo), echo);
      return Finished;
    }

    /**
     * One turn of `handle_input`'s loop: the next id is drawn and tracked;
     * then either the interrupt arrives, or statement `i` is handled under
     * that id and the unit stops exactly when it ended the session.
     */
    method HandleNext(stmts: seq<string>, i: nat, verbose: bool, forcePager: bool, interruptAt: Option<nat>,
                      ghost ctx: Context, ghost log0: seq<Call>, ghost echo0: seq<Emit>, ghost drawn0: nat)
      returns (stop: bool, end: UnitEnd)
      requires Ready() && Ctx() == ctx
      requires i < |stmts| && |queryIds| == i
      requires ids.drawn == drawn0 + i && DrawnFrom(queryIds, drawn0)
      requires interruptAt.None? || interruptAt.value >= i
      requires var e := UnitEffect(ctx, server, stmts[..i], queryIds, verbose, forcePager);
        client.log == log0 + e.calls && echo == echo0 + e.out && !e.quit
      modifies this`queryIds, this`echo, client`log, ids
      ensures Ready() && Ctx() == ctx && |queryIds| == i + 1
      ensures ids.drawn == drawn0 + i + 1 && DrawnFrom(queryIds, drawn0)
      ensures stop ==> UnitOutcome(ctx, server, stmts, verbose, forcePager, interruptAt, end, queryIds,
                                   log0, client.log, echo0, echo)
      ensures !stop ==> interruptAt.None? || interruptAt.value >= i + 1
      ensures !stop ==> var e := UnitEffect(ctx, server, stmts[..i + 1], queryIds, verbose, forcePager);
        client.log == log0 + e.calls && echo == echo0 + e.out && !e.quit
    {
      ghost var before := queryIds;
      var id := Track(drawn0);
      PrefixOfSnoc(before, id);
      if interruptAt.Some? && interruptAt.value == i {
        InterruptedOutcome(ctx, server, stmts, verbose, forcePager, interruptAt, i, queryIds, log0, client.log, echo0, echo);
        return true, Interrupted;
      }
      var quit := HandleTracked(stmts, i, verbose, forcePager, interruptAt, ctx, log0, echo0);
      if quit {
        return true, Ended;
      }
      return false, Finished;
    }

    /** `query_id = str(uuid4())` and `self.query_ids.append(query_id)`: a fresh id is drawn and tracked. */
    method Track(ghost base: nat) returns (id: string)
      requires ids.drawn == base + |queryIds| && DrawnFrom(queryIds, base)
      modifies this`queryIds, ids
      ensures queryIds == old(queryIds) + [id] && id == Decimal(old(ids.drawn))
      ensures ids.drawn == old(ids.drawn) + 1 && DrawnFrom(queryIds, base)
    {
      id := ids.Fresh();
      DrawnSnoc(queryIds, base, id);
      queryIds := queryIds + [id];
    }

    /**
     * Statement `i` of a unit, handled under the id just tracked for it: the
     * unit's calls and output so far are extended by the statement's.
     */
    method HandleTracked(stmts: seq<string>, i: nat, verbose: bool, forcePager: bool, interruptAt: Option<nat>,
                         ghost ctx: Context, ghost log0: seq<Call>, ghost echo0: seq<Emit>) returns (quit: bool)
      requires Ready() && Ctx() == ctx
      requires i < |stmts| && |queryIds| == i + 1
      requires interruptAt.None? || interruptAt.value > i
      requires var e := UnitEffect(ctx, server, stmts[..i], queryIds[..i], verbose, forcePager);
        client.log == log0 + e.calls && echo == echo0 + e.out && !e.quit
      modifies this`echo, client`log
      ensures var e := UnitEffect(ctx, server, stmts[..i + 1], queryIds, verbose, forcePager);
        client.log == log0 + e.calls && echo == echo0 + e.out && quit == e.quit
      ensures quit ==> UnitOutcome(ctx, server, stmts, verbose, forcePager, interruptAt, Ended, queryIds,
                                   log0, client.log, echo0, echo)
    {
      ghost var before := queryIds[..i];
      var id := queryIds[i];
      assert queryIds == before + [id];
      quit := HandleQuery(stmts[i], None, false, verbose, Some(id), None, forcePager);
      UnitStep(ctx, server, stmts, i, before, id, verbose, forcePager, log0, echo0, client.log, echo);
      if quit {
        EndedOutcome(ctx, server, stmts, verbose, forcePager, interruptAt, i, queryIds, log0, client.log, echo0, echo);
      }
    }

    /** After Ctrl-C: one kill request for each tracked id, in order. */
    method KillTracked()
      requires client != null
      modifies client`log
      ensures client.log == old(client.log) + KillCalls(queryIds)
    {
      var j := 0;
      while j < |queryIds|
        invariant 0 <= j <= |queryIds|
        invariant client.log == old(client.log) + KillCalls(queryIds[..j])
      {
        client.KillQuery(queryIds[j]);
        assert queryIds[..j + 1][..j] == queryIds[..j];
        j := j + 1;
      }
      assert queryIds[..j] == queryIds;
    }

    /**
     * One turn of the shell loop. A unit is handled verbosely with metadata
     * refresh; Ctrl-C cancels the unit's tracked statements and says so;
     * an exit command or Ctrl-D ends the session with `Bye.`; whatever
     * happened, no id stays tracked.
     */
    method Iterate(ev: Event)
      returns (stop: bool, end: UnitEnd, ghost tracked: seq<string>, ghost unitLog: seq<Call>, ghost unitEcho: seq<Emit>)
      requires Ready() && queryIds == []
      modifies this`queryIds, this`echo, this`refreshes, client`log, ids
      ensures Ready() && queryIds == []
      ensures !ev.Submit? ==> ids.drawn == old(ids.drawn)
      ensures ev.EndOfInput? ==>
        stop && echo == old(echo) + [SuccessText(ByeText)] && client.log == old(client.log)
      ensures ev.PromptInterrupt? ==>
        !stop && echo == old(echo) + [ErrorText(TerminatedText)] && client.log == old(client.log)
      ensures ev.Submit? ==>
        && ids.drawn == old(ids.drawn) + |tracked| && DrawnFrom(tracked, old(ids.drawn))
        && UnitOutcome(Ctx(), server, split(Body(ev.text)), true, ForcesPager(ev.text), ev.interruptAt, end, tracked,
                       old(client.log), unitLog, old(echo), unitEcho)
        && client.log == unitLog + (if end == Interrupted then KillCalls(tracked) else [])
        && echo == unitEcho + (if end == Interrupted then [ErrorText(TerminatedText)]
                               else if end == Ended then [SuccessText(ByeText)] else [])
        && (stop <==> end == Ended)
      ensures refreshes == old(refreshes) + if ev.Submit? && end == Finished && |Body(ev.text)| > 0 then 1 else 0
      ensures stop <==> Stops(ev)
    {
      end := Finished;
      tracked, unitLog, unitEcho := [], client.log, echo;
      match ev {
        case EndOfInput =>
          echo := echo + [SuccessText(ByeText)];
          stop := true;
        case PromptInterrupt =>
          KillTracked();
          echo := echo + [ErrorText(TerminatedText)];
          stop := false;
        case Submit(text, interruptAt) =>
          end, tracked, unitLog, unitEcho := RunUnit(text, interruptAt);
          EndedIff(Ctx(), server, split(Body(text)), true, ForcesPager(text), interruptAt, end, tracked,
                   old(client.log), unitLog, old(echo), unitEcho);
          stop := end == Ended;
      }
      queryIds := [];
    }

    /**
     * A shell turn that ends the session: Ctrl-D at the prompt, or a unit
     * holding an exit command before the statement the interrupt came at.
     */
    predicate Stops(ev: Event) {
      ev.EndOfInput? || (ev.Submit? && UnitExits(exitCommands, split(Body(ev.text)), ev.interruptAt))
    }

    /**
     * A unit typed at the prompt, handled verbosely with metadata refresh;
     * on Ctrl-C the ids it tracked are killed and `Query was terminated.` is
     * written, on an exit command `Bye.`.
     */
    method RunUnit(text: string, interruptAt: Option<nat>)
      returns (end: UnitEnd, ghost tracked: seq<string>, ghost unitLog: seq<Call>, ghost unitEcho: seq<Emit>)
      requires Ready() && queryIds == []
      modifies this`queryIds, this`echo, this`refreshes, client`log, ids
      ensures Ready()
      ensures ids.drawn == old(ids.drawn) + |tracked| && DrawnFrom(tracked, old(ids.drawn))
      ensures UnitOutcome(Ctx(), server, split(Body(text)), true, ForcesPager(text), interruptAt, end, tracked,
                          old(client.log), unitLog, old(echo), unitEcho)
      ensures client.log == unitLog + (if end == Interrupted then KillCalls(tracked) else [])
      ensures echo == unitEcho + (if end == Interrupted then [ErrorText(TerminatedText)]
                                  else if end == Ended then [SuccessText(ByeText)] else [])
      ensures refreshes == old(refreshes) + if end == Finished && |Body(text)| > 0 then 1 else 0
    {
      end := HandleInput(text, true, true, interruptAt);
      tracked, unitLog, unitEcho := queryIds, client.log, echo;
      if end == Interrupted {
        KillTracked();
        echo := echo + [ErrorText(TerminatedText)];
      } else if end == Ended {
        echo := echo + [SuccessText(ByeText)];
      }
    }

    /**
     * The shell: the metadata is loaded once, then turns run until the first
     * one that ends the session (Ctrl-D, or a unit with an exit command) or
     * until the events run out. The session ends with `Bye.`.
     */
    method Interact(events: seq<Event>) returns (turns: nat, ended: bool)
      requires Ready() && queryIds == []
      modifies this`queryIds, this`echo, this`refreshes, client`log, ids
      ensures Ready() && queryIds == []
      ensures turns <= |events| && refreshes >= old(refreshes) + 1
      ensures forall t :: 0 <= t < turns - (if ended then 1 else 0) ==> !Stops(events[t])
      ensures ended ==> turns >= 1 && Stops(events[turns - 1]) && |echo| >= 1 && echo[|echo| - 1] == SuccessText(ByeText)
      ensures !ended ==> turns == |events|
    {
      refreshes := refreshes + 1;
      turns := 0;
      ended := false;
      while turns < |events|
        invariant Ready() && queryIds == []
        invariant turns <= |events| && refreshes >= old(refreshes) + 1
        invariant forall t :: 0 <= t < turns ==> !Stops(events[t])
      {
        var stop, end, tracked, unitLog, unitEcho := Iterate(events[turns]);
        turns := turns + 1;
        if stop {
          ended := true;
          return;
        }
      }
    }

    /** Every input unit in turn, quietly and without metadata refresh, until one ends the session. */
    method RunBatch(items: seq<Item>) returns (done: nat, ended: bool)
      requires Ready()
      modifies this`queryIds, this`echo, this`refreshes, client`log, ids
      ensures Ready()
      ensures done <= |items| && (!ended ==> done == |items|)
      ensures refreshes == old(refreshes)
    {
      done := 0;
      ended := false;
      while done < |items|
        invariant Ready()
        invariant done <= |items| && refreshes == old(refreshes)
      {
        var end := HandleInput(items[done].content, false, false, None);
        done := done + 1;
        if end == Ended {
          ended := true;
          return;
        }
      }
    }

    /** The query once per input, streamed, with the input as data and gzip for `.gz` names. */
    method RunIngest(query: string, items: seq<Item>) returns (done: nat)
      requires Ready()
      modifies this`echo, client`log
      ensures done <= |items|
      ensures var e := IngestEffect(Ctx(), server, query, items[..done]);
        && client.log == old(client.log) + e.calls
        && echo == old(echo) + e.out
        && (done < |items| ==> e.quit)
    {
      done := 0;
      ghost var ctx := Ctx();
      while done < |items|
        invariant done <= |items| && Ready() && Ctx() == ctx
        invariant var e := IngestEffect(ctx, server, query, items[..done]);
          client.log == old(client.log) + e.calls && echo == old(echo) + e.out && !e.quit
      {
        var item := items[done];
        var quit := HandleQuery(query, Some(item), true, false, None, Compression(item.name), false);
        IngestStep(ctx, server, query, items, done, old(client.log), old(echo), client.log, echo);
        done := done + 1;
        if quit {
          return;
        }
      }
    }

    /**
     * `run`: configuration, the switch to the stdin format and quiet output
     * for non-interactive use, the banner when verbose, the connection; then,
     * once connected, the client gets the merged settings and the mode the
     * inputs select runs.
     */
    method Run(query: Option<string>, data: seq<Item>, cfg: Config, events: seq<Event>) returns (mode: Option<Mode>)
      requires port.PortNumber? && queryIds == []
      modifies this, ids
      ensures config == Some(cfg)
      ensures CurrentTarget() == ResolveTarget(old(CurrentTarget()), cfg)
      ensures (|data| > 0 || query.Some?) ==> format == Or(old(formatStdin), cfg.formatStdin) && !verbose
      ensures |data| == 0 && query.None? ==> format == Or(old(format), cfg.format) && verbose == old(verbose)
      ensures settings == MergeSettings(cfg.settings, old(settings))
      ensures formatStdin == Or(old(formatStdin), cfg.formatStdin) && multiline == cfg.multiline
      ensures showFormattedQuery == cfg.showFormattedQuery
      ensures highlight == cfg.highlight && colors == cfg.highlight && highlightOutput == cfg.highlightOutput
      ensures connTimeout == cfg.connTimeout && connTimeoutRetry == cfg.connTimeoutRetry
      ensures connTimeoutRetryDelay == cfg.connTimeoutRetryDelay
      ensures mode.Some? <==> ProbeReport(server(ProbeRequest), stacktrace).0.Connected?
      ensures mode.Some? ==> mode.value == SelectMode(|data| > 0, query)
      ensures mode.Some? ==> client != null && client.settings == settings
    {
      Prepare(query.Some?, |data| > 0, cfg);
      mode := Start(query, data, events);
    }

    /** The part of `run` before the connection: configuration, output format and banner. */
    method Prepare(hasQuery: bool, hasData: bool, cfg: Config)
      requires port.PortNumber?
      modifies this`config, this`multiline, this`format, this`formatStdin, this`showFormattedQuery,
               this`highlight, this`highlightOutput, this`connTimeout, this`connTimeoutRetry,
               this`connTimeoutRetryDelay, this`host, this`port, this`user, this`password, this`database,
               this`settings, this`colors, this`verbose, this`echo
      ensures config == Some(cfg)
      ensures CurrentTarget() == ResolveTarget(old(CurrentTarget()), cfg)
      ensures (hasData || hasQuery) ==> format == Or(old(formatStdin), cfg.formatStdin) && !verbose
      ensures !hasData && !hasQuery ==> format == Or(old(format), cfg.format) && verbose == old(verbose)
      ensures settings == MergeSettings(cfg.settings, old(settings))
      ensures formatStdin == Or(old(formatStdin), cfg.formatStdin) && multiline == cfg.multiline
      ensures showFormattedQuery == cfg.showFormattedQuery
      ensures highlight == cfg.highlight && colors == cfg.highlight && highlightOutput == cfg.highlightOutput
      ensures connTimeout == cfg.connTimeout && connTimeoutRetry == cfg.connTimeoutRetry
      ensures connTimeoutRetryDelay == cfg.connTimeoutRetryDelay
      ensures echo == old(echo) + if verbose then [Note("clickhouse-cli version: " + packageVersion)] else []
    {
      LoadConfig(cfg);
      ChooseOutput(hasData || hasQuery);
    }

    /** Non-interactive use reads `format_stdin` and goes quiet; the banner is shown only when verbose. */
    method ChooseOutput(nonInteractive: bool)
      modifies this`format, this`verbose, this`echo
      ensures nonInteractive ==> format == formatStdin && !verbose
      ensures !nonInteractive ==> format == old(format) && verbose == old(verbose)
      ensures echo == old(echo) + if verbose then [Note("clickhouse-cli version: " + packageVersion)] else []
    {
      if nonInteractive {
        format := formatStdin;
        verbose := false;
      }
      if verbose {
        echo := echo + [Note("clickhouse-cli version: " + packageVersion)];
      }
    }

    /** The part of `run` from the connection on: the selected mode runs only once connected. */
    method Start(query: Option<string>, data: seq<Item>, events: seq<Event>) returns (mode: Option<Mode>)
      requires config.Some? && queryIds == []
      modifies this`url, this`client, this`echo, this`serverVersion, this`queryIds, this`refreshes, ids
      ensures mode.Some? <==> ProbeReport(server(ProbeRequest), stacktrace).0.Connected?
      ensures mode.Some? ==> mode.value == SelectMode(|data| > 0, query)
      ensures mode.Some? ==> client != null && client.settings == settings
    {
      var status := Connect();
      if !status.Connected? {
        return None;
      }
      client.settings := settings;
      var m := SelectMode(|data| > 0, query);
      RunMode(m, query, data, events);
      mode := Some(m);
    }

    /** The work of the selected mode, once connected. */
    method RunMode(m: Mode, query: Option<string>, data: seq<Item>, events: seq<Event>)
      requires Ready() && queryIds == []
      requires m == SelectMode(|data| > 0, query)
      modifies this`queryIds, this`echo, this`refreshes, client`log, ids
      ensures Ready()
      ensures m == OneShot ==>
        var e := StatementEffect(Ctx(), server, query.value, None, true, false, None, None, false);
        client.log == old(client.log) + e.calls && echo == old(echo) + e.out
      ensures m == Batch ==> refreshes == old(refreshes)
      ensures m == Interactive ==> refreshes > old(refreshes)
    {
      match m
      case Batch =>
        var done, ended := RunBatch(data);
      case OneShot =>
        var quit := HandleQuery(query.value, None, true, false, None, None, false);
      case Ingest =>
        var done := RunIngest(query.value, data);
      case Interactive =>
        var turns, ended := Interact(events);
    }
  }
}
