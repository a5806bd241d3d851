/** What the checker yields on the functions of the repository's test
    module, stated at the level of issues (kind, name, line). Each function
    is `test_fn`, annotated `-> int`, with positional parameters `x` and `y`
    unless stated otherwise; the docstring is given by the names it
    documents and whether it documents a return. The fixture file has its
    leading newline stripped, so its `def` is on line 1; the files the
    other tests write start with a newline, so theirs is on line 2. */
module Scenarios {
  import opened Syntax
  import opened DocstringErrors
  import opened Checker

  const X: string := "x"
  const Y: string := "y"

  function TestFn(line: nat, args: seq<string>, documented: seq<string>, hasReturns: bool): FunctionDef {
    FunctionDef("test_fn", line, args, OtherAnnotation, Parsed(ParsedDocstring(documented, hasReturns, false)))
  }

  /** The issues of a module holding just `f`, with no comments. */
  function Only(v: Variant, f: FunctionDef, opts: Options): seq<Issue> {
    Issues(v, [Function(f)], [], opts)
  }

  lemma OnlyIsDocstringIssues(v: Variant, f: FunctionDef, opts: Options)
    ensures Only(v, f, opts) == DocstringIssues(v, f, opts)
  {
    assert [Function(f)][1..] == [];
    assert !IgnoreThisFunction(f, []);
    assert Issues(v, [], [], opts) == [];
  }

  lemma PlainXY()
    ensures !StartsWithStar(X) && !StartsWithStar(Y)
  {
    assert X[0] == 'x' && Y[0] == 'y';
  }

  lemma PlainNamesKept(v: Variant, documented: seq<string>)
    requires forall i :: 0 <= i < |documented| ==> |documented[i]| > 0 && documented[i][0] != '*'
    ensures CleanDocstringParams(v, set p | p in documented) == set p | p in documented
  {
    forall p | p in documented
      ensures !StartsWithStar(p)
    {
      var i :| 0 <= i < |documented| && documented[i] == p;
    }
  }

  /** The fixture: everything documented; no issue under any options. */
  lemma FullyDocumentedIsClean(v: Variant, opts: Options)
    ensures Only(v, TestFn(1, [X, Y], [X, Y], true), opts) == []
  {
    var f := TestFn(1, [X, Y], [X, Y], true);
    OnlyIsDocstringIssues(v, f, opts);
    PlainNamesKept(v, [X, Y]);
    assert X in DocstringParams(f.docstring.doc);
  }

  /** `y` undocumented: the documented set is not empty, so PARAMS_MISSING
      cannot fire, whatever the options; PARAMS_MISMATCH does. */
  lemma OneParamUndocumented(v: Variant, opts: Options)
    ensures Only(v, TestFn(2, [X, Y], [X], true), opts) == [Issue(ParamsMismatch, "test_fn", 2)]
  {
    var f := TestFn(2, [X, Y], [X], true);
    OnlyIsDocstringIssues(v, f, opts);
    PlainNamesKept(v, [X]);
    assert X in DocstringParams(f.docstring.doc);
    assert Y in FunctionParams(f) && Y !in DocstringParams(f.docstring.doc);
  }

  /** No `:return:` while parameters are documented: NO_RETURN. */
  lemma ReturnUndocumented(v: Variant)
    ensures Only(v, TestFn(2, [X, Y], [X, Y], false), Options(false, false, false))
         == [Issue(NoReturn, "test_fn", 2)]
  {
    var f := TestFn(2, [X, Y], [X, Y], false);
    OnlyIsDocstringIssues(v, f, Options(false, false, false));
    PlainNamesKept(v, [X, Y]);
    assert X in DocstringParams(f.docstring.doc);
  }

  /** `*args` and `**kwargs` documented for a function that has them: they
      are not positional, and the package drops the starred names, so no
      issue; the entry point compares them and reports PARAMS_MISMATCH. */
  lemma StarredNamesDocumented()
    ensures Only(Package, TestFn(2, [X, Y], [X, Y, "*args", "**kwargs"], true), Options(false, false, false)) == []
    ensures Only(Script, TestFn(2, [X, Y], [X, Y, "*args", "**kwargs"], true), Options(false, false, false))
         == [Issue(ParamsMismatch, "test_fn", 2)]
  {
    var f := TestFn(2, [X, Y], [X, Y, "*args", "**kwargs"], true);
    OnlyIsDocstringIssues(Package, f, Options(false, false, false));
    OnlyIsDocstringIssues(Script, f, Options(false, false, false));
    StarredDroppedByPackage(f);
    StarredComparedByScript(f);
  }

  lemma StarredDroppedByPackage(f: FunctionDef)
    requires f.args == [X, Y] && f.docstring == Parsed(ParsedDocstring([X, Y, "*args", "**kwargs"], true, false))
    ensures !ParamsMismatchFires(Package, f, f.docstring.doc)
  {
    var documented := DocstringParams(f.docstring.doc);
    assert CleanDocstringParams(Package, documented) == FunctionParams(f) by {
      assert forall p :: p in documented && !StartsWithStar(p) ==> p == X || p == Y;
      PlainXY();
    }
  }

  lemma StarredComparedByScript(f: FunctionDef)
    requires f.args == [X, Y] && f.docstring == Parsed(ParsedDocstring([X, Y, "*args", "**kwargs"], true, false))
    ensures ParamsMismatchFires(Script, f, f.docstring.doc)
  {
    var documented := DocstringParams(f.docstring.doc);
    assert "*args" in documented && "*args" !in FunctionParams(f);
  }

  /** Only `**kwargs` documented beside the positional parameters: the
      package drops it and finds nothing, under any options. */
  lemma DoubleStarredOnlyDocumented(opts: Options)
    ensures Only(Package, TestFn(2, [X, Y], [X, Y, "**kwargs"], true), opts) == []
  {
    var f := TestFn(2, [X, Y], [X, Y, "**kwargs"], true);
    OnlyIsDocstringIssues(Package, f, opts);
    DoubleStarredDroppedByPackage(f);
    assert X in DocstringParams(f.docstring.doc);
  }

  lemma DoubleStarredDroppedByPackage(f: FunctionDef)
    requires f.args == [X, Y] && f.docstring == Parsed(ParsedDocstring([X, Y, "**kwargs"], true, false))
    ensures !ParamsMismatchFires(Package, f, f.docstring.doc)
  {
    var documented := DocstringParams(f.docstring.doc);
    assert CleanDocstringParams(Package, documented) == FunctionParams(f) by {
      assert forall p :: p in documented && !StartsWithStar(p) ==> p == X || p == Y;
      PlainXY();
    }
  }

  /** `kwargs` documented without its stars: it is compared as a name, and
      no positional parameter carries it, so PARAMS_MISMATCH. */
  lemma UnstarredKwargsDocumented(v: Variant)
    ensures Only(v, TestFn(2, [X, Y], [X, Y, "kwargs"], true), Options(false, false, false))
         == [Issue(ParamsMismatch, "test_fn", 2)]
  {
    var f := TestFn(2, [X, Y], [X, Y, "kwargs"], true);
    OnlyIsDocstringIssues(v, f, Options(false, false, false));
    PlainNamesKept(v, [X, Y, "kwargs"]);
    assert "kwargs" in DocstringParams(f.docstring.doc);
    assert "kwargs" !in FunctionParams(f);
  }

  /** The module of the async test: its `async def` is an
      `ast.AsyncFunctionDef`, which the loader turns into `Other` without
      reading its docstring, so the module yields nothing. */
  lemma AsyncFunctionsAreSkipped(v: Variant, opts: Options)
    ensures Issues(v, [Other], [], opts) == []
  {
    OtherNodesContributeNothing(v, [], [], [], opts);
    assert [] + [Other] + [] == [Other];
  }

  /** A `# noqa_doc` comment on the header line silences even a function
      with no docstring under the strictest options. */
  lemma NoqaCommentSuppresses(v: Variant)
    ensures Issues(v, [Function(FunctionDef("f", 3, [X], OtherAnnotation, Missing))],
                   [Comment("# noqa_doc", 3)], Options(true, true, true)) == []
  {
    var f := FunctionDef("f", 3, [X], OtherAnnotation, Missing);
    assert [Function(f)][1..] == [];
    var comments := [Comment("# noqa_doc", 3)];
    IgnoreThisFunctionIff(f, comments);
    assert "# noqa_doc"[2..] == CheckNone;
    assert Text.Contains("# noqa_doc"[2..], CheckNone);
    assert Text.Contains("# noqa_doc"[1..], CheckNone);
  }

  /** The same function without the comment gets NO_DOCSTRING. */
  lemma MissingDocstringReported(v: Variant)
    ensures Issues(v, [Function(FunctionDef("f", 3, [X], OtherAnnotation, Missing))],
                   [], Options(true, true, true)) == [Issue(NoDocstring, "f", 3)]
  {
    var f := FunctionDef("f", 3, [X], OtherAnnotation, Missing);
    OnlyIsDocstringIssues(v, f, Options(true, true, true));
  }
}
