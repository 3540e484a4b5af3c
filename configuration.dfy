/**
 * Configuration resolution in `CLI.load_config`: each connection value is the
 * command-line value when it is truthy, else the configuration file's value
 * when that is truthy, else a built-in default; the two formats fall back
 * from the command line to the file; the query settings of the command line
 * are laid over those of the file.
 */
module Configuration {

  /** A port as Python holds it: an `int` (command line or default) or the text read from the file. */
  datatype Port = PortNumber(n: int) | PortText(text: string) {
    /** Python truthiness: `0` and `''` are false. */
    predicate Truthy() {
      match this
      case PortNumber(n) => n != 0
      case PortText(t) => t != ""
    }
  }

  /** The values `read_config` yields (the file's contents layered over the packaged defaults). */
  datatype Config = Config(
    multiline: bool,
    format: string,
    formatStdin: string,
    showFormattedQuery: bool,
    highlight: bool,
    highlightOutput: bool,
    pager: bool,
    timing: bool,
    connTimeout: real,
    connTimeoutRetry: int,
    connTimeoutRetryDelay: real,
    host: string,
    port: string,
    user: string,
    password: string,
    db: string,
    settings: map<string, string>)

  const DefaultHost := "127.0.0.1"
  const DefaultPort := 8123
  const DefaultUser := "default"
  const DefaultPassword := ""
  const DefaultDatabase := "default"

  /**
   * Python's `a or b` on strings: `a` when it is non-empty, else `b`. The
   * operator groups to the left, so `a or b or c` is `Or(Or(a, b), c)`.
   */
  function Or(a: string, b: string): string {
    if a != "" then a else b
  }

  /** `cli or config or fallback`: each step is taken only when everything before it is empty. */
  lemma OrChainPrecedence(cli: string, config: string, fallback: string)
    ensures cli != "" ==> Or(Or(cli, config), fallback) == cli
    ensures cli == "" && config != "" ==> Or(Or(cli, config), fallback) == config
    ensures cli == "" && config == "" ==> Or(Or(cli, config), fallback) == fallback
    ensures fallback != "" ==> Or(Or(cli, config), fallback) != ""
  {
  }

  /** `cli_port or config_port or 8123`. */
  function ResolvePort(cli: int, config: string): (r: Port)
    ensures r.Truthy()
    ensures cli != 0 ==> r == PortNumber(cli)
    ensures cli == 0 && config != "" ==> r == PortText(config)
    ensures cli == 0 && config == "" ==> r == PortNumber(DefaultPort)
  {
    if cli != 0 then PortNumber(cli)
    else if config != "" then PortText(config)
    else PortNumber(DefaultPort)
  }

  /** The connection values `load_config` settles on. */
  datatype Target = Target(host: string, port: Port, user: string, password: string, database: string)

  /** Each connection value in order of precedence: command line, file, default. */
  function ResolveTarget(cli: Target, config: Config): Target
    requires !cli.port.PortText?
  {
    Target(
      Or(Or(cli.host, config.host), DefaultHost),
      ResolvePort(cli.port.n, config.port),
      Or(Or(cli.user, config.user), DefaultUser),
      Or(Or(cli.password, config.password), DefaultPassword),
      Or(Or(cli.database, config.db), DefaultDatabase))
  }

  /**
   * Each connection value is the command line's when that is set, else the
   * file's when that is set, else the default; so host, user and database are
   * never empty after resolution and the port is always set.
   */
  lemma ResolvedTarget(cli: Target, config: Config)
    requires !cli.port.PortText?
    ensures var t := ResolveTarget(cli, config);
      && t.host == (if cli.host != "" then cli.host else if config.host != "" then config.host else DefaultHost)
      && t.port == (if cli.port.n != 0 then cli.port
                    else if config.port != "" then PortText(config.port) else PortNumber(DefaultPort))
      && t.user == (if cli.user != "" then cli.user else if config.user != "" then config.user else DefaultUser)
      && t.password == (if cli.password != "" then cli.password
                        else if config.password != "" then config.password else DefaultPassword)
      && t.database == (if cli.database != "" then cli.database
                        else if config.db != "" then config.db else DefaultDatabase)
      && t.host != "" && t.user != "" && t.database != "" && t.port.Truthy()
  {
    OrChainPrecedence(cli.host, config.host, DefaultHost);
    OrChainPrecedence(cli.user, config.user, DefaultUser);
    OrChainPrecedence(cli.password, config.password, DefaultPassword);
    OrChainPrecedence(cli.database, config.db, DefaultDatabase);
  }

  /**
   * `config_settings.update(arg_settings)`: every key of either map, with the
   * command line's value wherever it has one.
   */
  function MergeSettings(config: map<string, string>, cli: map<string, string>): (r: map<string, string>)
    ensures r.Keys == config.Keys + cli.Keys
    ensures forall k :: k in cli ==> r[k] == cli[k]
    ensures forall k :: k in config && k !in cli ==> r[k] == config[k]
  {
    config + cli
  }
}
