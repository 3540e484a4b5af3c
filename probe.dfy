/**
 * The connection check in `CLI.connect`: the answer to `SELECT version();`
 * must end with a newline, and its stripped text split on '.' must start with
 * three integers, which become the server version triple.
 */
module Probe {
  import opened Wrappers
  import opened Strings
  import opened Numerals
  import opened Reporting

  datatype Version = Version(major: int, minor: int, patch: int)

  /** How the probe's answer is read. */
  datatype Parse =
    | Parsed(version: Version)
    | Unterminated     // no trailing newline: reported, connect fails
    | Unparseable      // fewer than three parts or a non-integer part: `IndexError`/`ValueError`, not caught

  function ParseProbe(data: string): Parse {
    if !EndsWith(data, "\n") then Unterminated
    else
      var parts := Split(Strip(data), '.');
      if |parts| < 3 then Unparseable
      else
        match (PyInt(parts[0]), PyInt(parts[1]), PyInt(parts[2]))
        case (Some(major), Some(minor), Some(patch)) => Parsed(Version(major, minor, patch))
        case _ => Unparseable
  }

  /** The text a server sends for version `major.minor.patch`, possibly with more parts after. */
  function VersionText(major: nat, minor: nat, patch: nat): string {
    Decimal(major) + "." + Decimal(minor) + "." + Decimal(patch)
  }

  lemma NoDotInDecimal(n: nat)
    ensures '.' !in Decimal(n)
  {
    var d := Decimal(n);
    forall i | 0 <= i < |d| ensures d[i] != '.' {
      assert IsDigit(d[i]);
    }
  }

  /** Stripping text that has no whitespace at its ends, plus a newline, gives the text back. */
  lemma StripNewline(s: string)
    requires s != [] && !IsSpace(s[0]) && !IsSpace(s[|s| - 1])
    ensures Strip(s + "\n") == s
  {
    var data := s + "\n";
    assert LStrip(data) == data;
    assert data[..|data| - 1] == s;
    assert RStrip(data) == RStrip(s);
    StripTrimmed(s);
  }

  /** The first three pieces of `a.b.c` followed by nothing or by `.more` are `a`, `b` and `c`. */
  lemma SplitVersion(a: string, b: string, c: string, tail: string)
    requires '.' !in a && '.' !in b && '.' !in c
    requires tail == [] || tail[0] == '.'
    ensures var parts := Split(a + "." + b + "." + c + tail, '.');
      |parts| >= 3 && parts[0] == a && parts[1] == b && parts[2] == c
  {
    var rest := c + tail;
    assert a + "." + b + "." + c + tail == a + ['.'] + (b + ['.'] + rest);
    SplitAtSeparator(a, b + ['.'] + rest, '.');
    SplitAtSeparator(b, rest, '.');
    if tail == [] {
      assert rest == c;
      SplitWithoutSeparator(c, '.');
    } else {
      assert rest == c + ['.'] + tail[1..];
      SplitAtSeparator(c, tail[1..], '.');
    }
  }

  /**
   * Whatever follows the third number (another `.N` part, as in `1.1.54380.1`)
   * is ignored: the version read back is the one that was sent.
   */
  lemma ProbeRoundTrip(major: nat, minor: nat, patch: nat, tail: string)
    requires tail == [] || (tail[0] == '.' && !IsSpace(tail[|tail| - 1]))
    ensures ParseProbe(VersionText(major, minor, patch) + tail + "\n") == Parsed(Version(major, minor, patch))
  {
    var s := VersionText(major, minor, patch) + tail;
    var data := VersionText(major, minor, patch) + tail + "\n";
    assert data == s + "\n";
    VersionTextTrimmed(major, minor, patch, tail);
    StripNewline(s);
    assert EndsWith(data, "\n");
    VersionTextParts(major, minor, patch, tail);
    PyIntDecimal(major);
    PyIntDecimal(minor);
    PyIntDecimal(patch);
  }

  /** A version text, with or without a tail ending in something other than a space, has no whitespace at its ends. */
  lemma VersionTextTrimmed(major: nat, minor: nat, patch: nat, tail: string)
    requires tail == [] || (tail[0] == '.' && !IsSpace(tail[|tail| - 1]))
    ensures var s := VersionText(major, minor, patch) + tail;
      s != [] && !IsSpace(s[0]) && !IsSpace(s[|s| - 1])
  {
    var a, c := Decimal(major), Decimal(patch);
    var s := VersionText(major, minor, patch) + tail;
    assert s[0] == a[0] && IsDigit(a[0]);
    if tail == [] {
      assert s[|s| - 1] == c[|c| - 1];
      assert IsDigit(c[|c| - 1]);
    } else {
      assert s[|s| - 1] == tail[|tail| - 1];
    }
  }

  /** Split on '.', a version text with a tail starts with the three decimal numbers. */
  lemma VersionTextParts(major: nat, minor: nat, patch: nat, tail: string)
    requires tail == [] || tail[0] == '.'
    ensures var parts := Split(VersionText(major, minor, patch) + tail, '.');
      |parts| >= 3 && parts[0] == Decimal(major) && parts[1] == Decimal(minor) && parts[2] == Decimal(patch)
  {
    var a, b, c := Decimal(major), Decimal(minor), Decimal(patch);
    assert VersionText(major, minor, patch) + tail == a + "." + b + "." + c + tail;
    NoDotInDecimal(major);
    NoDotInDecimal(minor);
    NoDotInDecimal(patch);
    SplitVersion(a, b, c, tail);
  }

  /** The answer is rejected as a failed request exactly when it lacks the trailing newline. */
  lemma UnterminatedIff(data: string)
    ensures ParseProbe(data) == Unterminated <==> !EndsWith(data, "\n")
  {
  }

  /** Where `connect` ends up. */
  datatype Connection =
    | Connected(version: Version)
    | Refused          // an error was reported and `connect` returned False
    | Crashed          // the version could not be parsed: the exception escapes `run`

  /** The outcome of `connect` and what it writes, given how the probe query ended. */
  function ProbeReport(outcome: Outcome, stacktrace: bool): (Connection, seq<Emit>) {
    match outcome
    case TimedOut => (Refused, [ErrorText("Error: Connection timeout.")])
    case Unreachable => (Refused, [ErrorText("Error: Failed to connect.")])
    case ServerError(error, trace, _) =>
      (Refused, [ErrorText("Error:"), ErrorText(error)]
                + (if stacktrace && trace != "" then [Note("Stack trace:"), Note(trace)] else []))
    case Answer(resp) =>
      match ParseProbe(resp.data)
      case Unterminated => (Refused, [ErrorText("Error: Request failed: `SELECT version();` query failed.")])
      case Unparseable => (Crashed, [])
      case Parsed(v) =>
        (Connected(v), [SuccessText("Connected to ClickHouse server v" + IntText(v.major) + "."
                                    + IntText(v.minor) + "." + IntText(v.patch) + ".\n")])
  }

  /**
   * `connect` succeeds exactly when the probe was answered with a parseable
   * version, which it then holds; every refusal writes an error first.
   */
  lemma ProbeConnects(outcome: Outcome, stacktrace: bool)
    ensures var (c, out) := ProbeReport(outcome, stacktrace);
      && (c.Connected? <==> outcome.Answer? && ParseProbe(outcome.response.data).Parsed?)
      && (c.Connected? ==> c.version == ParseProbe(outcome.response.data).version)
      && (c.Refused? ==> |out| >= 1 && out[0].ErrorText?)
      && (c.Crashed? <==> outcome.Answer? && ParseProbe(outcome.response.data).Unparseable?)
  {
  }

  /** A server that answers `major.minor.patch` followed by a newline leads to a connection at that version. */
  lemma ConnectsToAnsweredVersion(major: nat, minor: nat, patch: nat, resp: Response, stacktrace: bool)
    requires resp.data == VersionText(major, minor, patch) + "\n"
    ensures ProbeReport(Answer(resp), stacktrace).0 == Connected(Version(major, minor, patch))
  {
    ProbeRoundTrip(major, minor, patch, []);
    assert VersionText(major, minor, patch) + [] + "\n" == resp.data;
  }
}
