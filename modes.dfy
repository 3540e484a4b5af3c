/**
 * The run-mode choice in `CLI.run` (piped input only, one query only, a query
 * fed with piped input, or the interactive shell) and the choice of gzip
 * compression for an uploaded file by its extension.
 */
module Modes {
  import opened Wrappers
  import opened Strings

  datatype Mode =
    | Batch        // input given, no query: every input is run as statements
    | OneShot      // a query, no input: the query runs once, streamed
    | Ingest       // a query and input: the query runs once per input, the input as its data
    | Interactive  // neither: the shell

  /** The mode for the given input (`data` non-empty) and `--query` value. */
  function SelectMode(hasData: bool, query: Option<string>): (m: Mode)
    ensures m == Batch <==> hasData && query.None?
    ensures m == OneShot <==> !hasData && query.Some?
    ensures m == Ingest <==> hasData && query.Some?
    ensures m == Interactive <==> !hasData && query.None?
  {
    if hasData && query.None? then Batch
    else if !hasData && query.Some? then OneShot
    else if hasData && query.Some? then Ingest
    else Interactive
  }

  /**
   * `CLI.run` switches to the stdin format and turns verbose output off
   * (`data or query is not None`) exactly in the non-interactive modes.
   */
  lemma NonInteractiveUsesStdinFormat(hasData: bool, query: Option<string>)
    ensures (hasData || query.Some?) <==> SelectMode(hasData, query) != Interactive
  {
  }

  /** `s.rfind(c)`: the last index of `c` in `s`, or -1. */
  function RFind(s: string, c: char): (r: int)
    ensures -1 <= r < |s|
    ensures r >= 0 ==> s[r] == c
    ensures forall i :: r < i < |s| ==> s[i] != c
  {
    if s == [] then -1
    else if s[|s| - 1] == c then |s| - 1
    else RFind(s[..|s| - 1], c)
  }

  /** Some character at an index in `[lo, hi)` is not a dot. */
  predicate HasNonDot(p: string, lo: int, hi: int)
    requires 0 <= lo && hi <= |p|
  {
    exists i :: lo <= i < hi && p[i] != '.'
  }

  /**
   * `os.path.splitext(p)[1]` on POSIX paths: from the last dot of the last
   * path component, provided that dot is preceded in the component by a
   * character other than a dot; otherwise empty.
   */
  function Extension(p: string): string {
    var sepIndex := RFind(p, '/');
    var dotIndex := RFind(p, '.');
    if dotIndex > sepIndex && HasNonDot(p, sepIndex + 1, dotIndex) then p[dotIndex..] else ""
  }

  /** The codec an uploaded input is compressed with: gzip for a `.gz` file, none otherwise. */
  function Compression(name: string): Option<string> {
    if Extension(name) == ".gz" then Some("gzip") else None
  }

  /**
   * An input is sent gzip-compressed exactly when its name ends in `.gz` and
   * its last path component has something other than dots before that suffix
   * (so `data.csv.gz` is, while `.gz`, `..gz` and `dir.gz/file` are not).
   */
  lemma {:induction false} GzipIff(name: string)
    ensures Compression(name) == Some("gzip")
      <==> EndsWith(name, ".gz") && HasNonDot(name, RFind(name, '/') + 1, |name| - 3)
  {
    var suffixed := EndsWith(name, ".gz") && HasNonDot(name, RFind(name, '/') + 1, |name| - 3);
    if Extension(name) == ".gz" {
      GzipHasSuffix(name);
    }
    if suffixed {
      SuffixIsGzip(name);
    }
    assert Extension(name) == ".gz" <==> suffixed;
  }

  lemma {:induction false} GzipHasSuffix(name: string)
    requires Extension(name) == ".gz"
    ensures EndsWith(name, ".gz") && HasNonDot(name, RFind(name, '/') + 1, |name| - 3)
  {
    var dotIndex := RFind(name, '.');
    assert name[dotIndex..] == ".gz";
    assert |name| - dotIndex == 3;
  }

  lemma {:induction false} SuffixIsGzip(name: string)
    requires EndsWith(name, ".gz") && HasNonDot(name, RFind(name, '/') + 1, |name| - 3)
    ensures Extension(name) == ".gz"
  {
    var n := |name|;
    var sepIndex := RFind(name, '/');
    var dotIndex := RFind(name, '.');
    assert name[n - 3..] == ".gz";
    assert name[n - 3] == '.' && name[n - 2] == 'g' && name[n - 1] == 'z';
    assert dotIndex >= n - 3;
    assert dotIndex == n - 3;
    assert sepIndex != n - 3 && sepIndex != n - 2 && sepIndex != n - 1;
    assert sepIndex < dotIndex;
  }
}
