# reST docstring checker, modelled in Dafny

The reST docstring checker reads Python files. For every module-level
`def`, it reports where the docstring disagrees with the signature. Each
finding is a pair: a message from a fixed catalog of five error kinds,
and the function's line.

The checker works in this order for each function:

1. A `# noqa_doc` comment on the header line silences the function.
2. A missing or empty docstring is reported only when
   `disallow_no_docstring` is on.
3. A docstring the reST parser rejects is reported as not valid reST.
4. Otherwise three checks run, in this order:
   - missing parameters, only when `disallow_no_params` is on;
   - a mismatch between the documented and the positional parameter names;
   - a missing return section.

The command-line entry point runs the checker on each path it is given. It
prints `path:line: message` for each finding, and exits with status 1 if
anything was found, 0 otherwise.

The repository holds two implementations, and both are modelled. `Checker`
takes a `Variant` that selects between them:

- **`Package`**: `rest_docstring_checker/docstring_checker.py` with the
  catalog in `rest_docstring_checker/docstring_errors.py`.
  - Its messages have no final period.
  - Before comparing parameter names, it drops every documented name that
    starts with `*`.
- **`Script`**: the command-line entry point,
  `rest_docstring_checker/__main__.py`, and its identical copy
  `rest_docstring_checker/main.py`. This file carries its own catalog and
  its own copy of the checker.
  - Its messages end with `.`.
  - It compares the documented names as they are.

Modules:

- `Syntax`: the checker's inputs. These are the module body (functions and
  other statements), the comment tokens, what the reST parser made of each
  docstring, and the three options.
- `DocstringErrors` and `ScriptErrors`: the two catalogs.
  - Python's `str.format` is modelled on these templates as `Format`, and
    proved to put the function name where the `{}` placeholder was.
  - Each catalog has a parser proved to be its inverse, so a message
    determines its kind and its function name.
- `Checker`: the specification and the imperative model of `check_docstrings`.
  - The specification decides a list of `Issue`s (kind, name, line).
    `Findings` renders them through the catalog.
  - The `CheckDocstrings` method walks the body with the source's `for`
    loop and is proved to return exactly `Findings`. The loop body, with
    its `continue`s turned into early returns, is the method `CheckNode`.
  - Lemmas characterise each kind of finding (both directions), the
    suppression rule, the order and the shape of a function's findings,
    monotonicity in the options, and where the two variants differ.
- `Cli`: `main`.
  - It resolves the options (`--strict` turns every check on).
  - It checks each file in order through a loader function and prints
    each finding.
  - It returns the exit status.
  - It is proved against the specification `Output`. For a path without `:`,
    each printed line is proved to parse back into path, line and message.
- `Scenarios`: what the model yields on the functions of the repository's
  test module.

Where the code disagrees with the tests, or with descriptions of the
checker's intended behaviour, this model follows the code. The
differences:

- **Starred names in the package.** The package drops documented names
  starting with `*` (`docstring_checker.py:145-150`). It does not strip the
  stars and keep the name.
  - The positional parameter set is `node.args.args` (line 71), which never
    holds `*args` or `**kwargs`.
  - So a docstring documenting `x, y, *args, **kwargs` for
    `test_fn(x, y, **kwargs)` yields no finding. This is
    `Scenarios.StarredNamesDocumented`.
  - The test at `tests/docstring_checker_test.py:174-198` expects
    PARAMS_MISMATCH there.
- **Documenting only some parameters.** This yields PARAMS_MISMATCH, never
  PARAMS_MISSING (`Scenarios.OneParamUndocumented`). PARAMS_MISSING needs
  the documented set to be empty.
  - The tests at lines 77-99, 148-171 and 223-245 expect PARAMS_MISSING.
  - The code reports PARAMS_MISMATCH for 77-99 and nothing for 148-171
    and 223-245.
- **`kwargs` documented without stars.** For `test_fn(x, y, **kwargs)` this
  is a mismatch (`Scenarios.UnstarredKwargsDocumented`). The test at lines
  201-220 expects nothing.
- **`async def`.** It is not an `ast.FunctionDef` and is never checked
  (`Scenarios.AsyncFunctionsAreSkipped`). The test at lines 295-312
  expects a finding.
- **The entry point's copy.** It compares the documented names unfiltered
  (`__main__.py:225-226`). There, any documented `*args` or `**kwargs`
  yields PARAMS_MISMATCH (`Checker.ScriptFlagsStarredDocs`).

## Model

| member | source | states |
|---|---|---|
| `Text.ContainsIff` | rest_docstring_checker/docstring_checker.py:224 | The substring test `marker in comment` holds exactly when the marker occurs at some position of the comment. |
| `Text.NatToString` | rest_docstring_checker/__main__.py:47 | The printed line number is a non-empty run of decimal digits without a leading zero (unless it is "0"), and it denotes the number. |
| `DocstringErrors.PrefixHasNoBrace` | rest_docstring_checker/docstring_errors.py:7-11 | No template text before the placeholder holds a `{`, so each template's only replacement field is its final `{}`. |
| `DocstringErrors.FormatFillsPlaceholder` | rest_docstring_checker/docstring_errors.py:21 | `format` on a template `p + "{}" + s` with no `{` in `p` yields `p`, then the argument verbatim, then `s`. |
| `DocstringErrors.GetDocstringErrorMessage` | rest_docstring_checker/docstring_errors.py:14-21 | The message is the kind's template text followed by the function name, with nothing after it. |
| `DocstringErrors.PrefixesIncomparable` | rest_docstring_checker/docstring_errors.py:7-11 | No kind's template text opens a message of another kind. |
| `DocstringErrors.ParseMessageRoundTrip` | rest_docstring_checker/docstring_errors.py:14-21 | Parsing a message gives back the kind and the function name it was made from. |
| `DocstringErrors.ParseMessageSound` | rest_docstring_checker/docstring_errors.py:4-21 | Any text that parses is exactly the message of the kind and name it parses to. |
| `DocstringErrors.MessageInjective` | rest_docstring_checker/docstring_errors.py:7-11 | Two equal messages come from the same kind and the same function name. |
| `ScriptErrors.GetDocstringErrorMessage` | rest_docstring_checker/__main__.py:23-30 | The entry point's message is the kind's template text, the function name and a final period. |
| `ScriptErrors.ParseMessageRoundTrip` | rest_docstring_checker/__main__.py:16-20 | The entry point's messages parse back to their kind and function name. |
| `ScriptErrors.ParseMessageSound` | rest_docstring_checker/__main__.py:14-30 | Any text that parses under the entry point's catalog is exactly the message it parses to. |
| `ScriptErrors.AddsPeriodToPackageMessage` | rest_docstring_checker/__main__.py:16-20 | The entry point's message equals the package's message with a period appended. |
| `Checker.MessageRoundTrip` | rest_docstring_checker/docstring_checker.py:46-54 | In both variants, a reported message decodes to the kind and the function name it was made from. |
| `Checker.MessageDeterminesKind` | rest_docstring_checker/__main__.py:16-30 | Within one variant, equal messages mean equal kinds and equal function names. |
| `Checker.CommentsOnLineMembers` | rest_docstring_checker/docstring_checker.py:219-223 | A text is among the comments on a line exactly when some comment token ending on that line has that text. |
| `Checker.IgnoreThisFunctionIff` | rest_docstring_checker/docstring_checker.py:206-224 | A function is ignored exactly when some comment ending on its header line contains `noqa_doc`. |
| `Checker.CommentsElsewhereNeverSuppress` | rest_docstring_checker/docstring_checker.py:219-224 | Comments ending on other lines, wherever they stand in the comment list, never change whether a function is ignored. |
| `Checker.ReturnTypeNoneIff` | rest_docstring_checker/docstring_checker.py:195-203 | The return type counts as None exactly for no annotation, a constant without a kind (e.g. `-> None` or `-> "int"`), or a constant whose kind is the text "None". |
| `Checker.CheckDocstringParamsMissing` | rest_docstring_checker/docstring_checker.py:98-123 | The list is extended by one PARAMS_MISSING finding on the function's line when the option is on and the caller's flag holds, and is otherwise unchanged. `check_docstrings` sets that flag when the function has a positional parameter and the docstring documents none (lines 73-75). |
| `Checker.CheckDocstringFunctionParamsMismatch` | rest_docstring_checker/docstring_checker.py:126-158 | One PARAMS_MISMATCH finding is appended exactly when something is documented and the compared names differ from the positional names. The package compares without starred names, the entry point compares all. |
| `Checker.CheckMissingDocstringReturn` | rest_docstring_checker/docstring_checker.py:161-192 | One NO_RETURN finding is appended exactly when the return type is not None, no return is documented, and parameters or raises are documented or the option is on. |
| `Checker.CheckParsedDocstring` | rest_docstring_checker/docstring_checker.py:71-93 | For a parsed docstring, the findings appended are those of the three checks in source order. |
| `Checker.CheckNode` | rest_docstring_checker/docstring_checker.py:37-93 | One statement of the body appends exactly the rendered issues the specification gives it: nothing for non-functions and suppressed functions, then the two gates, then the three checks. |
| `Checker.CheckDocstrings` | rest_docstring_checker/docstring_checker.py:15-95 | The loop returns exactly the rendered issues of the specification, statement by statement. The same body serves the entry point's copy (`__main__.py:98-178`) under `Script`. |
| `Checker.FindingsDecode` | rest_docstring_checker/docstring_checker.py:46-53 | Every finding carries its function's line, and its message decodes back to its kind and function name. No information is lost in rendering. |
| `Checker.IssuesAppend` | rest_docstring_checker/docstring_checker.py:36-93 | The issues of a concatenated body are the issues of the first part followed by those of the second. |
| `Checker.FindingsAppend` | rest_docstring_checker/docstring_checker.py:35-95 | Findings follow module-body order: those of a concatenation are the concatenation of the findings. |
| `Checker.OtherNodesContributeNothing` | rest_docstring_checker/docstring_checker.py:37-38 | Inserting a statement that is not a function definition anywhere in the body changes no finding. |
| `Checker.SuppressionIff` | rest_docstring_checker/docstring_checker.py:39-40 | A function yields nothing under any options exactly when a comment on its header line contains `noqa_doc`; otherwise it yields its docstring's issues. |
| `Checker.MissingDocstringGate` | rest_docstring_checker/docstring_checker.py:42-55 | A missing or empty docstring yields exactly one NO_DOCSTRING issue when the option is on, nothing otherwise, and no other check runs. |
| `Checker.MalformedDocstringGate` | rest_docstring_checker/docstring_checker.py:57-69 | A docstring the parser rejects yields exactly one INVALID_RE_ST issue, whatever the options. |
| `Checker.ParamSetsNonEmpty` | rest_docstring_checker/docstring_checker.py:71-75 | The parameter sets are non-empty exactly when the parameter lists are. |
| `Checker.NoDocstringIff` | rest_docstring_checker/docstring_checker.py:44-54 | NO_DOCSTRING is reported iff the function is not suppressed, has no docstring, and the option is on. |
| `Checker.ParamsMissingIff` | rest_docstring_checker/docstring_checker.py:73-81 | PARAMS_MISSING is reported iff the function is not suppressed, its docstring parses, the option is on, it has a positional parameter and nothing is documented. |
| `Checker.ParamsMismatchIff` | rest_docstring_checker/docstring_checker.py:145-157 | PARAMS_MISMATCH is reported iff the function is not suppressed, its docstring parses and documents something, and the compared names differ from the positional names, under any options. |
| `Checker.NoReturnIff` | rest_docstring_checker/docstring_checker.py:178-191 | NO_RETURN is reported iff the function is not suppressed, its docstring parses, the return type is not None, no return is documented, and parameters or raises are documented or the option is on. |
| `Checker.MissingExcludesMismatch` | rest_docstring_checker/docstring_checker.py:71-87 | No function gets both PARAMS_MISSING and PARAMS_MISMATCH. |
| `Checker.FunctionIssuesShape` | rest_docstring_checker/docstring_checker.py:42-93 | A function yields at most three issues, and at most one unless its docstring parsed. All of them carry its name and line, in the order the checks run, with no kind twice. |
| `Checker.IssuesComeFromFunctions` | rest_docstring_checker/docstring_checker.py:36-54 | Every issue is on the line of, and names, a function definition of the module body. |
| `Checker.OptionsMonotone` | rest_docstring_checker/docstring_checker.py:44-93 | Turning options on never removes an issue; as multisets, the issues only grow. |
| `Checker.FindingsMonotone` | rest_docstring_checker/docstring_checker.py:15-20 | Every finding under weaker options is still reported under stronger ones. |
| `Checker.PackageIgnoresStarredDocs` | rest_docstring_checker/docstring_checker.py:145-151 | In the package, adding documented names starting with `*` to a non-empty documented list never changes whether PARAMS_MISMATCH fires. |
| `Checker.ScriptFlagsStarredDocs` | rest_docstring_checker/__main__.py:225-226 | In the entry point, a documented name starting with `*` always makes PARAMS_MISMATCH fire. |
| `Checker.VariantsAgreeWithoutStarredDocs` | rest_docstring_checker/__main__.py:209-233 | Without documented names starting with `*`, the two implementations agree on PARAMS_MISMATCH. |
| `Cli.EffectiveOptions` | rest_docstring_checker/__main__.py:41-43 | With `--strict` every check is on; without it each option is exactly its flag. |
| `Cli.PrintFindings` | rest_docstring_checker/__main__.py:46-47 | The lines printed for one file are `path:line: message` for each finding, in order. |
| `Cli.Run` | rest_docstring_checker/__main__.py:33-50 | The printed lines are `Output`: every finding of every file, in file order, as `path:line: message`. The status is 1 when some file had a finding and 0 otherwise. |
| `Cli.OutputEmptyIff` | rest_docstring_checker/__main__.py:44-48 | Nothing is printed exactly when no file has a finding, so the exit status is 0 exactly when nothing was printed. |
| `Cli.AnyFindingsIff` | rest_docstring_checker/__main__.py:36-48 | The exit status is 1 exactly when some listed file has a finding. |
| `Cli.ParseLineRoundTrip` | rest_docstring_checker/__main__.py:47 | For a path without `:`, a printed line splits back into the path, the finding's line number and its message. |
| `Cli.OutputLinesComeFromFindings` | rest_docstring_checker/__main__.py:45-47 | Every printed line is `path:line: message` for one of the given paths and one finding of that file. |
| `Cli.StrictReportsMore` | rest_docstring_checker/__main__.py:41-43 | Every finding reported without `--strict` is also reported with it. |
| `Scenarios.FullyDocumentedIsClean` | tests/docstring_checker_test.py:24-74 | The fixture function, fully documented with a return, yields nothing under every option combination, in both variants. |
| `Scenarios.OneParamUndocumented` | tests/docstring_checker_test.py:77-99 | Documenting `x` but not `y` yields exactly one PARAMS_MISMATCH and never PARAMS_MISSING, under every option combination. |
| `Scenarios.ReturnUndocumented` | tests/docstring_checker_test.py:101-122 | Documented parameters without a return, on an `-> int` function, yield exactly one NO_RETURN. |
| `Scenarios.StarredNamesDocumented` | tests/docstring_checker_test.py:125-145 | Documenting `*args` and `**kwargs` yields nothing in the package and PARAMS_MISMATCH in the entry point. |
| `Scenarios.DoubleStarredOnlyDocumented` | tests/docstring_checker_test.py:148-171 | Documenting `x`, `y` and `**kwargs` yields nothing in the package under any options. |
| `Scenarios.UnstarredKwargsDocumented` | tests/docstring_checker_test.py:201-271 | Documenting `kwargs` without stars yields exactly one PARAMS_MISMATCH in both variants. |
| `Scenarios.AsyncFunctionsAreSkipped` | tests/docstring_checker_test.py:274-312 | The async test's module, whose `async def` the loader turns into a non-function statement, yields nothing; derived from `Checker.OtherNodesContributeNothing`. |
| `Scenarios.NoqaCommentSuppresses` | rest_docstring_checker/docstring_checker.py:39-40 | A `# noqa_doc` comment on the header line silences a function without a docstring, even with every option on. |
| `Scenarios.MissingDocstringReported` | rest_docstring_checker/docstring_checker.py:44-55 | The same function without the comment yields exactly one NO_DOCSTRING. |

## Left out

- Reading and parsing files is not modelled: `open`, `ast.parse` and `tokenize` in
  `parse_module_and_extract_comments` (`module_parser.py:5-24`, `__main__.py:302-321`). The
  checker takes the module body and comment tokens as input, and `Cli.Run` takes the
  loader as a function `load`. Unreadable files and syntax errors raise exceptions in
  the source; they are not modelled.
- The reST parser (`docstring_parser.parse`) is not modelled. Each docstring arrives as
  its outcome: `Malformed` when the parser raises `ParseError`, otherwise the documented
  parameter names and whether return and raises sections exist. Other exceptions from
  the parser are not modelled.
- `ast.get_docstring` is not modelled. Its cleaning of the text is invisible to the
  checker, and a missing or empty docstring is `Missing`.
- Argument parsing (`_get_parsed_args`, `__main__.py:53-95`) is not modelled: `Cli.Run`
  takes the parsed `CliArgs`. `--help` and malformed command lines are argparse's
  business.
- `print` and `sys.exit` are not modelled as effects: `Cli.Run` returns the printed
  lines and the exit status.
- `rest_docstring_checker/constants.py` is not part of this model. The marker's value
  `noqa_doc` is the one defined at `__main__.py:10`.
- The helpers' in-place `append` is modelled by value. The source mutates the list it
  is given and returns that same list; the model returns the extended list, and no
  other reference to the list exists in the source.
- Python's `str.format` is modelled only for templates whose one replacement field is
  a bare `{}`, which is all the catalogs use. Escaped braces, field names and format
  specs are not modelled.
- The two copies of `_is_function_return_type_none` and `_ignore_this_function` are
  identical, so each is modelled once. The same holds for the loop of
  `check_docstrings`; its copy in `__main__.py:98-178` is `Checker.CheckDocstrings`
  under `Script`.
