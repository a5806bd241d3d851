/** The command-line entry point: resolves the options, checks each file
    in turn with the entry point's own checker, prints one line per finding
    and exits with 1 when anything was found.

    Reading and parsing a file is the loader's business; here it is the
    function `load`, which maps a path to the module body and comment
    tokens the loader would produce. */
module Cli {
  import opened Wrappers
  import opened Text
  import opened Syntax
  import Checker

  /** The parsed command line: the positional file paths and the four flags. */
  datatype CliArgs = CliArgs(
    filePaths: seq<string>,
    disallowNoDocstring: bool,
    disallowNoParams: bool,
    disallowNoReturn: bool,
    strict: bool)

  /** The options `main` passes to `check_docstrings`: `--strict` switches
      every check on, otherwise each flag stands for itself. */
  function EffectiveOptions(a: CliArgs): (o: Options)
    ensures a.strict ==> o == Options(true, true, true)
    ensures !a.strict ==> o == Options(a.disallowNoDocstring, a.disallowNoParams, a.disallowNoReturn)
  {
    Options(a.strict || a.disallowNoDocstring, a.strict || a.disallowNoParams, a.strict || a.disallowNoReturn)
  }

  /** The findings of the entry point's checker for one file. */
  function FileFindings(load: string -> Module, path: string, opts: Options): seq<Checker.Finding> {
    Checker.Findings(Checker.Script, load(path).body, load(path).comments, opts)
  }

  /** One printed line: `path:line: message`. */
  function FormatLine(path: string, x: Checker.Finding): string {
    path + ":" + NatToString(x.line) + ": " + x.message
  }

  /** The lines printed for one file's findings, in order. */
  function FileLines(path: string, fs: seq<Checker.Finding>): (r: seq<string>)
    ensures |r| == |fs|
    decreases |fs|
  {
    if fs == [] then [] else FileLines(path, fs[..|fs| - 1]) + [FormatLine(path, fs[|fs| - 1])]
  }

  /** Everything `main` prints for the given paths, file after file. */
  function Output(paths: seq<string>, load: string -> Module, opts: Options): seq<string>
    decreases |paths|
  {
    if paths == [] then []
    else
      var last := paths[|paths| - 1];
      Output(paths[..|paths| - 1], load, opts) + FileLines(last, FileFindings(load, last, opts))
  }

  /** Some path of `paths`, looked at from the last one back, satisfies `p`. */
  predicate SomePath(p: string -> bool, paths: seq<string>)
    decreases |paths|
  {
    paths != [] && (SomePath(p, paths[..|paths| - 1]) || p(paths[|paths| - 1]))
  }

  lemma {:induction false} SomePathIff(p: string -> bool, paths: seq<string>)
    ensures SomePath(p, paths) <==> exists i :: 0 <= i < |paths| && p(paths[i])
    decreases |paths|
  {
    if paths != [] {
      var init := paths[..|paths| - 1];
      SomePathIff(p, init);
      if SomePath(p, init) {
        var i :| 0 <= i < |init| && p(init[i]);
        assert init[i] == paths[i];
      }
      if exists i :: 0 <= i < |paths| && p(paths[i]) {
        var i :| 0 <= i < |paths| && p(paths[i]);
        if i < |init| {
          assert init[i] == paths[i];
        }
      }
    }
  }

  /** Some file among `paths` has a finding: what `if docstring_errors:`
      tests, file after file. */
  predicate AnyFindings(paths: seq<string>, load: string -> Module, opts: Options) {
    SomePath(path => FileFindings(load, path, opts) != [], paths)
  }

  /** The printing loop of `main` for one file: one line per finding, in order. */
  method PrintFindings(filePath: string, docstringErrors: seq<Checker.Finding>) returns (lines: seq<string>)
    ensures lines == FileLines(filePath, docstringErrors)
  {
    lines := [];
    for k := 0 to |docstringErrors|
      invariant lines == FileLines(filePath, docstringErrors[..k])
    {
      assert docstringErrors[..k + 1][..k] == docstringErrors[..k];
      lines := lines + [FormatLine(filePath, docstringErrors[k])];
    }
    assert docstringErrors[..|docstringErrors|] == docstringErrors;
  }

  /** `main`: checks every path in order, prints each finding as
      `path:line: message`, and returns the exit status, 1 when some file
      had a finding and 0 otherwise. */
  method Run(args: CliArgs, load: string -> Module) returns (output: seq<string>, status: int)
    ensures output == Output(args.filePaths, load, EffectiveOptions(args))
    ensures status == (if AnyFindings(args.filePaths, load, EffectiveOptions(args)) then 1 else 0)
  {
    var opts := Options(
      args.strict || args.disallowNoDocstring,
      args.strict || args.disallowNoParams,
      args.strict || args.disallowNoReturn);
    var paths := args.filePaths;
    output := [];
    var returnValue := 0;
    for i := 0 to |paths|
      invariant output == Output(paths[..i], load, opts)
      invariant returnValue == (if AnyFindings(paths[..i], load, opts) then 1 else 0)
    {
      assert paths[..i + 1][..i] == paths[..i];
      var filePath := paths[i];
      var m := load(filePath);
      var docstringErrors := Checker.CheckDocstrings(Checker.Script, m.body, m.comments, opts);
      var lines := PrintFindings(filePath, docstringErrors);
      output := output + lines;
      if docstringErrors != [] {
        returnValue := 1;
      }
    }
    assert paths[..|paths|] == paths;
    status := returnValue;
  }

  // ---------------------------------------------------------------------
  // Properties of the output

  /** `main` prints nothing exactly when no file has a finding, so the exit
      status is 0 exactly when nothing is printed. */
  lemma {:induction false} OutputEmptyIff(paths: seq<string>, load: string -> Module, opts: Options)
    ensures Output(paths, load, opts) == [] <==> !AnyFindings(paths, load, opts)
    decreases |paths|
  {
    if paths != [] {
      OutputEmptyIff(paths[..|paths| - 1], load, opts);
    }
  }

  /** `AnyFindings` holds exactly when some listed file has a finding. */
  lemma AnyFindingsIff(paths: seq<string>, load: string -> Module, opts: Options)
    ensures AnyFindings(paths, load, opts) <==> exists i :: 0 <= i < |paths| && FileFindings(load, paths[i], opts) != []
  {
    SomePathIff(path => FileFindings(load, path, opts) != [], paths);
  }

  /** The first position of `c` in `s`, if any. */
  function IndexOf(s: string, c: char): (r: Option<nat>)
    ensures r.Some? ==> r.value < |s| && s[r.value] == c && c !in s[..r.value]
    ensures r.None? ==> c !in s
    decreases |s|
  {
    if s == [] then None
    else if s[0] == c then Some(0)
    else match IndexOf(s[1..], c)
      case None => None
      case Some(i) => assert s[..i + 1] == [s[0]] + s[1..][..i]; Some(i + 1)
  }

  /** Splits a printed line back into path, line number and message, taking
      the path up to the first `:` and the line number up to the next. */
  function ParseLine(s: string): Option<(string, nat, string)> {
    match IndexOf(s, ':')
    case None => None
    case Some(i) =>
      var rest := s[i + 1..];
      match IndexOf(rest, ':')
      case None => None
      case Some(j) =>
        var digits := rest[..j];
        if IsDigits(digits) && j + 1 < |rest| && rest[j + 1] == ' '
        then Some((s[..i], DigitsValue(digits), rest[j + 2..]))
        else None
  }

  /** Splitting `a + [c] + b` at the first `c` gives back `a` and `b` when
      `a` holds no `c`. */
  lemma SplitAtFirst(a: string, c: char, b: string)
    requires c !in a
    ensures var s := a + [c] + b;
      IndexOf(s, c) == Some(|a|) && s[..|a|] == a && s[|a| + 1..] == b
  {
    var s := a + [c] + b;
    assert s[..|a|] == a;
    IndexOfFirst(s, c, |a|);
    assert s[|a| + 1..] == b;
  }

  lemma IndexOfFirst(s: string, c: char, i: nat)
    requires i < |s| && s[i] == c && c !in s[..i]
    ensures IndexOf(s, c) == Some(i)
  {
  }

  /** Round trip: for a path without `:`, a printed line gives back the
      path, the finding's line number and its message. */
  lemma ParseLineRoundTrip(path: string, x: Checker.Finding)
    requires ':' !in path
    ensures ParseLine(FormatLine(path, x)) == Some((path, x.line, x.message))
  {
    var digits := NatToString(x.line);
    assert FormatLine(path, x) == path + [':'] + (digits + [':'] + (" " + x.message));
    ParseLineParts(path, digits, x.message);
  }

  lemma ParseLineParts(path: string, digits: string, message: string)
    requires ':' !in path && IsDigits(digits)
    ensures ParseLine(path + [':'] + (digits + [':'] + (" " + message)))
         == Some((path, DigitsValue(digits), message))
  {
    var tail := " " + message;
    var rest := digits + [':'] + tail;
    SplitAtFirst(path, ':', rest);
    assert ':' !in digits by {
      assert forall i :: 0 <= i < |digits| ==> IsDigit(digits[i]);
    }
    SplitAtFirst(digits, ':', tail);
    assert tail[0] == ' ' && tail[1..] == message;
  }

  lemma {:induction false} FileLinesMembers(path: string, fs: seq<Checker.Finding>, s: string)
    requires s in FileLines(path, fs)
    ensures exists x :: x in fs && s == FormatLine(path, x)
    decreases |fs|
  {
    var init := fs[..|fs| - 1];
    if s in FileLines(path, init) {
      FileLinesMembers(path, init, s);
      var x :| x in init && s == FormatLine(path, x);
      assert x in fs;
    } else {
      assert s == FormatLine(path, fs[|fs| - 1]);
    }
  }

  /** Every printed line is `path:line: message` for one of the given
      paths and one finding of that file's check. */
  lemma {:induction false} OutputLinesComeFromFindings(paths: seq<string>, load: string -> Module, opts: Options, s: string)
    requires s in Output(paths, load, opts)
    ensures exists i, x :: 0 <= i < |paths| && x in FileFindings(load, paths[i], opts) && s == FormatLine(paths[i], x)
    decreases |paths|
  {
    var init := paths[..|paths| - 1];
    var last := paths[|paths| - 1];
    if s in Output(init, load, opts) {
      OutputLinesComeFromFindings(init, load, opts, s);
      var i, x :| 0 <= i < |init| && x in FileFindings(load, init[i], opts) && s == FormatLine(init[i], x);
      assert init[i] == paths[i];
    } else {
      FileLinesMembers(last, FileFindings(load, last, opts), s);
      var x :| x in FileFindings(load, last, opts) && s == FormatLine(last, x);
      assert paths[|paths| - 1] == last;
    }
  }

  /** `--strict` reports everything the individual flags report: every
      finding of a file without it is still a finding with it. */
  lemma StrictReportsMore(a: CliArgs, load: string -> Module, path: string)
    ensures forall x :: x in FileFindings(load, path, EffectiveOptions(a)) ==>
                        x in FileFindings(load, path, EffectiveOptions(a.(strict := true)))
  {
    forall x | x in FileFindings(load, path, EffectiveOptions(a))
      ensures x in FileFindings(load, path, EffectiveOptions(a.(strict := true)))
    {
      Checker.FindingsMonotone(Checker.Script, load(path).body, load(path).comments,
        EffectiveOptions(a), EffectiveOptions(a.(strict := true)), x);
    }
  }
}
