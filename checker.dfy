/** The docstring consistency checker: for every module-level function it
    applies the suppression gate, the presence gate, the reST gate and then
    three independent checks, appending (message, line) findings in order.

    Two implementations exist. The package module (`Package`) drops
    documented names starting with `*` before comparing parameters and uses
    the catalog without trailing periods; the command-line entry point
    (`Script`) compares the raw documented names and ends its messages with
    a period. Everything else is the same, so one definition serves both. */
module Checker {
  import opened Wrappers
  import opened Text
  import opened Syntax
  import opened DocstringErrors
  import ScriptErrors

  /** The suppression marker (`CHECK_NONE`). */
  const CheckNone: string := "noqa_doc"

  datatype Variant = Package | Script

  /** One reported inconsistency: the rendered message and the function's line. */
  datatype Finding = Finding(message: string, line: nat)

  /** The message of kind `k` for function `name`, from the variant's catalog. */
  function Message(v: Variant, k: ErrorKind, name: string): string {
    match v
    case Package => DocstringErrors.GetDocstringErrorMessage(k, name)
    case Script => ScriptErrors.GetDocstringErrorMessage(k, name)
  }

  /** Reads a message of the variant's catalog back into kind and name. */
  function DecodeMessage(v: Variant, m: string): Option<(ErrorKind, string)> {
    match v
    case Package => DocstringErrors.ParseMessage(m)
    case Script => ScriptErrors.ParseMessage(m)
  }

  /** Every message decodes to the kind and name it was made from. */
  lemma MessageRoundTrip(v: Variant, k: ErrorKind, name: string)
    ensures DecodeMessage(v, Message(v, k, name)) == Some((k, name))
  {
    match v
    case Package => DocstringErrors.ParseMessageRoundTrip(k, name);
    case Script => ScriptErrors.ParseMessageRoundTrip(k, name);
  }

  /** Within one catalog, the message determines the kind and the name. */
  lemma MessageDeterminesKind(v: Variant, j: ErrorKind, k: ErrorKind, a: string, b: string)
    requires Message(v, j, a) == Message(v, k, b)
    ensures j == k && a == b
  {
    MessageRoundTrip(v, j, a);
    MessageRoundTrip(v, k, b);
  }

  // ---------------------------------------------------------------------
  // Suppression (`_ignore_this_function`)

  /** The texts of the comments that end on `line`, in file order. */
  function CommentsOnLine(comments: seq<Comment>, line: nat): seq<string>
    decreases |comments|
  {
    if comments == [] then []
    else
      (if comments[0].endLine == line then [comments[0].text] else [])
      + CommentsOnLine(comments[1..], line)
  }

  /** Python's `any(marker in t for t in texts)`. */
  predicate AnyContains(texts: seq<string>, marker: string) {
    exists t :: t in texts && Contains(t, marker)
  }

  /** `_ignore_this_function`: some comment on the function's header line
      holds the suppression marker. */
  predicate IgnoreThisFunction(f: FunctionDef, comments: seq<Comment>) {
    AnyContains(CommentsOnLine(comments, f.lineno), CheckNone)
  }

  lemma {:induction false} CommentsOnLineMembers(comments: seq<Comment>, line: nat, t: string)
    ensures t in CommentsOnLine(comments, line)
        <==> exists i :: 0 <= i < |comments| && comments[i].endLine == line && comments[i].text == t
    decreases |comments|
  {
    if comments != [] {
      CommentsOnLineMembers(comments[1..], line, t);
      if exists i :: 0 <= i < |comments[1..]| && comments[1..][i].endLine == line && comments[1..][i].text == t {
        var i :| 0 <= i < |comments[1..]| && comments[1..][i].endLine == line && comments[1..][i].text == t;
        assert comments[i + 1] == comments[1..][i];
      }
      if exists i :: 0 <= i < |comments| && comments[i].endLine == line && comments[i].text == t {
        var i :| 0 <= i < |comments| && comments[i].endLine == line && comments[i].text == t;
        if i > 0 {
          assert comments[1..][i - 1] == comments[i];
        }
      }
    }
  }

  lemma {:induction false} CommentsOnLineAppend(a: seq<Comment>, b: seq<Comment>, line: nat)
    ensures CommentsOnLine(a + b, line) == CommentsOnLine(a, line) + CommentsOnLine(b, line)
    decreases |a|
  {
    if a == [] {
      assert a + b == b;
    } else {
      CommentsOnLineAppend(a[1..], b, line);
      assert (a + b)[1..] == a[1..] + b;
    }
  }

  /** A function is suppressed exactly when some comment ending on its
      header line contains `noqa_doc`. */
  lemma IgnoreThisFunctionIff(f: FunctionDef, comments: seq<Comment>)
    ensures IgnoreThisFunction(f, comments)
        <==> exists i :: 0 <= i < |comments| && comments[i].endLine == f.lineno && Contains(comments[i].text, CheckNone)
  {
    if IgnoreThisFunction(f, comments) {
      var t :| t in CommentsOnLine(comments, f.lineno) && Contains(t, CheckNone);
      CommentsOnLineMembers(comments, f.lineno, t);
    }
    if exists i :: 0 <= i < |comments| && comments[i].endLine == f.lineno && Contains(comments[i].text, CheckNone) {
      var i :| 0 <= i < |comments| && comments[i].endLine == f.lineno && Contains(comments[i].text, CheckNone);
      CommentsOnLineMembers(comments, f.lineno, comments[i].text);
    }
  }

  /** Comments ending on other lines never suppress a function, wherever
      they stand in the comment list. */
  lemma CommentsElsewhereNeverSuppress(f: FunctionDef, a: seq<Comment>, extra: seq<Comment>, b: seq<Comment>)
    requires forall i :: 0 <= i < |extra| ==> extra[i].endLine != f.lineno
    ensures IgnoreThisFunction(f, a + extra + b) == IgnoreThisFunction(f, a + b)
  {
    CommentsOnLineAppend(a + extra, b, f.lineno);
    CommentsOnLineAppend(a, extra, f.lineno);
    CommentsOnLineAppend(a, b, f.lineno);
    var texts := CommentsOnLine(extra, f.lineno);
    if texts != [] {
      CommentsOnLineMembers(extra, f.lineno, texts[0]);
    }
  }

  // ---------------------------------------------------------------------
  // Return annotation (`_is_function_return_type_none`)

  /** Python's `str(kind)` for a constant's `kind` field. */
  function KindText(kind: Option<string>): string {
    match kind
    case None => "None"
    case Some(s) => s
  }

  /** `_is_function_return_type_none`: no annotation, or a constant whose
      `kind` renders as "None". */
  predicate IsFunctionReturnTypeNone(f: FunctionDef) {
    f.annotation.NoAnnotation? || (f.annotation.Constant? && KindText(f.annotation.kind) == "None")
  }

  /** The annotations counted as None-returning are exactly: none at all, a
      constant without a kind (any constant but a `u"..."` string, including
      `-> "int"`), and a constant whose kind is the text "None". */
  lemma ReturnTypeNoneIff(f: FunctionDef)
    ensures IsFunctionReturnTypeNone(f)
        <==> f.annotation == NoAnnotation || f.annotation == Constant(None) || f.annotation == Constant(Some("None"))
  {
  }

  // ---------------------------------------------------------------------
  // The three checks on a parsed docstring

  /** `{param.arg for param in node.args.args}` */
  function FunctionParams(f: FunctionDef): set<string> {
    set a | a in f.args
  }

  /** `{param.arg_name for param in docstring.params}` */
  function DocstringParams(doc: ParsedDocstring): set<string> {
    set p | p in doc.params
  }

  /** Python's `name.startswith("*")`. */
  predicate StartsWithStar(name: string) {
    "*" <= name
  }

  /** The documented names the mismatch check compares: the package drops
      every name starting with `*` (it does not strip the marker), the
      entry point keeps them all. */
  function CleanDocstringParams(v: Variant, docstringParams: set<string>): set<string> {
    match v
    case Package => set p | p in docstringParams && !StartsWithStar(p)
    case Script => docstringParams
  }

  predicate ParamsMissingFires(f: FunctionDef, doc: ParsedDocstring, disallowNoParams: bool) {
    disallowNoParams && |FunctionParams(f)| > 0 && |DocstringParams(doc)| == 0
  }

  predicate ParamsMismatchFires(v: Variant, f: FunctionDef, doc: ParsedDocstring) {
    DocstringParams(doc) != {} && FunctionParams(f) != CleanDocstringParams(v, DocstringParams(doc))
  }

  predicate NoReturnFires(f: FunctionDef, doc: ParsedDocstring, disallowNoReturn: bool) {
    !IsFunctionReturnTypeNone(f) && !doc.hasReturns && (doc.params != [] || doc.hasRaises || disallowNoReturn)
  }

  // ---------------------------------------------------------------------
  // The findings, as a specification

  /** One problem the checker finds, before its message is rendered: the
      kind, the function's name and the function's line. */
  datatype Issue = Issue(kind: ErrorKind, name: string, line: nat)

  function IssueOf(k: ErrorKind, f: FunctionDef): Issue {
    Issue(k, f.name, f.lineno)
  }

  function IssueIf(k: ErrorKind, f: FunctionDef, fires: bool): seq<Issue> {
    if fires then [IssueOf(k, f)] else []
  }

  /** The issues of an unsuppressed function: the two gates, then the three
      checks in their fixed order. */
  function DocstringIssues(v: Variant, f: FunctionDef, opts: Options): seq<Issue> {
    match f.docstring
    case Missing => IssueIf(NoDocstring, f, opts.disallowNoDocstring)
    case Malformed => [IssueOf(InvalidReSt, f)]
    case Parsed(doc) =>
      IssueIf(ParamsMissing, f, ParamsMissingFires(f, doc, opts.disallowNoParams))
      + IssueIf(ParamsMismatch, f, ParamsMismatchFires(v, f, doc))
      + IssueIf(NoReturn, f, NoReturnFires(f, doc, opts.disallowNoReturn))
  }

  /** The issues one statement of the module body contributes. */
  function NodeIssues(v: Variant, node: Node, comments: seq<Comment>, opts: Options): seq<Issue> {
    match node
    case Other => []
    case Function(f) => if IgnoreThisFunction(f, comments) then [] else DocstringIssues(v, f, opts)
  }

  /** The issues of a whole module body, statement by statement. */
  function Issues(v: Variant, body: seq<Node>, comments: seq<Comment>, opts: Options): seq<Issue>
    decreases |body|
  {
    if body == [] then []
    else NodeIssues(v, body[0], comments, opts) + Issues(v, body[1..], comments, opts)
  }

  /** An issue as the checker reports it: the catalog's message and the line. */
  function Render(v: Variant, x: Issue): Finding {
    Finding(Message(v, x.kind, x.name), x.line)
  }

  /** `f` applied to each element, in order. */
  function Map<A, B>(f: A -> B, xs: seq<A>): (r: seq<B>)
    ensures |r| == |xs|
    decreases |xs|
  {
    if xs == [] then [] else [f(xs[0])] + Map(f, xs[1..])
  }

  lemma {:induction false} MapIndex<A, B>(f: A -> B, xs: seq<A>)
    ensures forall i :: 0 <= i < |xs| ==> Map(f, xs)[i] == f(xs[i])
    decreases |xs|
  {
    if xs != [] {
      MapIndex(f, xs[1..]);
    }
  }

  lemma {:induction false} MapAppend<A, B>(f: A -> B, a: seq<A>, b: seq<A>)
    ensures Map(f, a + b) == Map(f, a) + Map(f, b)
    decreases |a|
  {
    if a == [] {
      assert a + b == b;
    } else {
      MapAppend(f, a[1..], b);
      assert (a + b)[1..] == a[1..] + b;
    }
  }

  function RenderAll(v: Variant, xs: seq<Issue>): seq<Finding> {
    Map(x => Render(v, x), xs)
  }

  /** What `check_docstrings` returns for a module. */
  function Findings(v: Variant, body: seq<Node>, comments: seq<Comment>, opts: Options): seq<Finding> {
    RenderAll(v, Issues(v, body, comments, opts))
  }

  // ---------------------------------------------------------------------
  // The checker as the source runs it

  /** `_check_docstring_params_missing`: appends PARAMS_MISSING when the
      option is on and the caller's flag holds; `check_docstrings` sets the
      flag when the function has a positional parameter and the docstring
      documents none. */
  method CheckDocstringParamsMissing(
    v: Variant, f: FunctionDef, errors: seq<Finding>,
    disallowNoParams: bool, isAtLeastOneUndocumentedParam: bool
  ) returns (r: seq<Finding>)
    ensures r == errors + RenderAll(v, IssueIf(ParamsMissing, f, disallowNoParams && isAtLeastOneUndocumentedParam))
  {
    r := errors;
    if disallowNoParams && isAtLeastOneUndocumentedParam {
      r := r + [Finding(Message(v, ParamsMissing, f.name), f.lineno)];
    }
  }

  /** `_check_docstring_function_params_mismatch`: appends PARAMS_MISMATCH
      when something is documented and the compared names differ from the
      positional parameters. */
  method CheckDocstringFunctionParamsMismatch(
    v: Variant, f: FunctionDef, errors: seq<Finding>,
    docstringParams: set<string>, functionParams: set<string>
  ) returns (r: seq<Finding>)
    ensures r == errors + RenderAll(v, IssueIf(ParamsMismatch, f,
      docstringParams != {} && functionParams != CleanDocstringParams(v, docstringParams)))
  {
    var compared := docstringParams;
    if v == Package {
      compared := set p | p in docstringParams && !("*" <= p);
    }
    var isParamMismatch := functionParams != compared;
    r := errors;
    if docstringParams != {} && isParamMismatch {
      r := r + [Finding(Message(v, ParamsMismatch, f.name), f.lineno)];
    }
  }

  /** `_check_missing_docstring_return`: appends NO_RETURN when the return
      type is not None-equivalent, no return is documented, and the
      docstring documents parameters or raises or the option is on. */
  method CheckMissingDocstringReturn(
    v: Variant, f: FunctionDef, errors: seq<Finding>,
    disallowNoReturn: bool, doc: ParsedDocstring
  ) returns (r: seq<Finding>)
    ensures r == errors + RenderAll(v, IssueIf(NoReturn, f, NoReturnFires(f, doc, disallowNoReturn)))
  {
    var isReturnTypeNone := IsFunctionReturnTypeNone(f);
    var paramsOrRaisesExist := doc.params != [] || doc.hasRaises;
    var isDocstringReturnMissing := !isReturnTypeNone && !doc.hasReturns && (paramsOrRaisesExist || disallowNoReturn);
    r := errors;
    if isDocstringReturnMissing {
      r := r + [Finding(Message(v, NoReturn, f.name), f.lineno)];
    }
  }

  lemma MapThree<A, B>(f: A -> B, e: seq<B>, a: seq<A>, b: seq<A>, c: seq<A>)
    ensures e + Map(f, a) + Map(f, b) + Map(f, c) == e + Map(f, a + b + c)
  {
    MapAppend(f, a, b);
    MapAppend(f, a + b, c);
  }

  /** The part of the loop of `check_docstrings` that runs once a
      docstring has parsed: the parameter sets, then the three checks in
      order. */
  method CheckParsedDocstring(v: Variant, f: FunctionDef, doc: ParsedDocstring, errors: seq<Finding>, opts: Options)
    returns (r: seq<Finding>)
    requires f.docstring == Parsed(doc)
    ensures r == errors + RenderAll(v, DocstringIssues(v, f, opts))
  {
    var functionParams := FunctionParams(f);
    var docstringParams := DocstringParams(doc);
    var isAtLeastOneUndocumentedParam := |functionParams| > 0 && |docstringParams| == 0;
    r := CheckDocstringParamsMissing(v, f, errors, opts.disallowNoParams, isAtLeastOneUndocumentedParam);
    r := CheckDocstringFunctionParamsMismatch(v, f, r, docstringParams, functionParams);
    r := CheckMissingDocstringReturn(v, f, r, opts.disallowNoReturn, doc);
    MapThree(x => Render(v, x), errors,
      IssueIf(ParamsMissing, f, ParamsMissingFires(f, doc, opts.disallowNoParams)),
      IssueIf(ParamsMismatch, f, ParamsMismatchFires(v, f, doc)),
      IssueIf(NoReturn, f, NoReturnFires(f, doc, opts.disallowNoReturn)));
  }

  /** One pass of the loop of `check_docstrings`: the findings one
      statement of the module body appends, in the order the checks run. */
  method CheckNode(v: Variant, node: Node, comments: seq<Comment>, errors: seq<Finding>, opts: Options)
    returns (r: seq<Finding>)
    ensures r == errors + RenderAll(v, NodeIssues(v, node, comments, opts))
  {
    ghost var added := NodeIssues(v, node, comments, opts);
    if !node.Function? {
      assert RenderAll(v, added) == [];
      return errors;
    }
    var f := node.def;
    if IgnoreThisFunction(f, comments) {
      assert RenderAll(v, added) == [];
      return errors;
    }
    if f.docstring.Missing? {
      if opts.disallowNoDocstring {
        assert RenderAll(v, added) == [Render(v, IssueOf(NoDocstring, f))];
        return errors + [Finding(Message(v, NoDocstring, f.name), f.lineno)];
      }
      assert RenderAll(v, added) == [];
      return errors;
    }
    if f.docstring.Malformed? {
      assert RenderAll(v, added) == [Render(v, IssueOf(InvalidReSt, f))];
      return errors + [Finding(Message(v, InvalidReSt, f.name), f.lineno)];
    }
    r := CheckParsedDocstring(v, f, f.docstring.doc, errors, opts);
  }

  /** `check_docstrings` on a loaded module: walks the body once and
      returns the findings the specification prescribes. */
  method CheckDocstrings(v: Variant, body: seq<Node>, comments: seq<Comment>, opts: Options)
    returns (errors: seq<Finding>)
    ensures errors == Findings(v, body, comments, opts)
  {
    errors := [];
    for i := 0 to |body|
      invariant errors == Findings(v, body[..i], comments, opts)
    {
      FindingsSnoc(v, body, i, comments, opts);
      errors := CheckNode(v, body[i], comments, errors, opts);
    }
    assert body[..|body|] == body;
  }

  lemma FindingsSnoc(v: Variant, body: seq<Node>, i: nat, comments: seq<Comment>, opts: Options)
    requires i < |body|
    ensures Findings(v, body[..i + 1], comments, opts)
         == Findings(v, body[..i], comments, opts) + RenderAll(v, NodeIssues(v, body[i], comments, opts))
  {
    assert body[..i + 1] == body[..i] + [body[i]];
    IssuesSnoc(v, body[..i], body[i], comments, opts);
    RenderAllAppend(v, Issues(v, body[..i], comments, opts), NodeIssues(v, body[i], comments, opts));
  }

  lemma IssuesSnoc(v: Variant, a: seq<Node>, node: Node, comments: seq<Comment>, opts: Options)
    ensures Issues(v, a + [node], comments, opts) == Issues(v, a, comments, opts) + NodeIssues(v, node, comments, opts)
  {
    IssuesAppend(v, a, [node], comments, opts);
    assert [node][1..] == [];
  }

  // ---------------------------------------------------------------------
  // Rendering loses nothing

  lemma RenderAllAppend(v: Variant, a: seq<Issue>, b: seq<Issue>)
    ensures RenderAll(v, a + b) == RenderAll(v, a) + RenderAll(v, b)
  {
    MapAppend(x => Render(v, x), a, b);
  }

  /** Every finding is the rendering of the issue at the same position:
      it carries that issue's line, and its message decodes back to that
      issue's kind and function name. */
  lemma FindingsDecode(v: Variant, xs: seq<Issue>)
    ensures |RenderAll(v, xs)| == |xs|
    ensures forall j :: 0 <= j < |xs| ==>
      RenderAll(v, xs)[j].line == xs[j].line
      && DecodeMessage(v, RenderAll(v, xs)[j].message) == Some((xs[j].kind, xs[j].name))
  {
    MapIndex(x => Render(v, x), xs);
    forall j | 0 <= j < |xs|
      ensures DecodeMessage(v, RenderAll(v, xs)[j].message) == Some((xs[j].kind, xs[j].name))
    {
      MessageRoundTrip(v, xs[j].kind, xs[j].name);
    }
  }

  // ---------------------------------------------------------------------
  // Properties of the findings

  lemma {:induction false} IssuesAppend(v: Variant, a: seq<Node>, b: seq<Node>, comments: seq<Comment>, opts: Options)
    ensures Issues(v, a + b, comments, opts) == Issues(v, a, comments, opts) + Issues(v, b, comments, opts)
    decreases |a|
  {
    if a == [] {
      assert a + b == b;
    } else {
      IssuesAppend(v, a[1..], b, comments, opts);
      IssuesCons(v, a, b, comments, opts);
    }
  }

  lemma IssuesCons(v: Variant, a: seq<Node>, b: seq<Node>, comments: seq<Comment>, opts: Options)
    requires a != []
    ensures Issues(v, a + b, comments, opts) == NodeIssues(v, a[0], comments, opts) + Issues(v, a[1..] + b, comments, opts)
  {
    assert (a + b)[0] == a[0];
    assert (a + b)[1..] == a[1..] + b;
  }

  /** Findings follow module-body order: the findings of a concatenation
      are the concatenation of the findings. */
  lemma FindingsAppend(v: Variant, a: seq<Node>, b: seq<Node>, comments: seq<Comment>, opts: Options)
    ensures Findings(v, a + b, comments, opts) == Findings(v, a, comments, opts) + Findings(v, b, comments, opts)
  {
    IssuesAppend(v, a, b, comments, opts);
    RenderAllAppend(v, Issues(v, a, comments, opts), Issues(v, b, comments, opts));
  }

  /** Statements that are not `ast.FunctionDef` (classes, `async def`,
      assignments) contribute no findings wherever they stand. */
  lemma OtherNodesContributeNothing(v: Variant, a: seq<Node>, b: seq<Node>, comments: seq<Comment>, opts: Options)
    ensures Issues(v, a + [Other] + b, comments, opts) == Issues(v, a + b, comments, opts)
  {
    var ia, ib := Issues(v, a, comments, opts), Issues(v, b, comments, opts);
    assert Issues(v, [Other], comments, opts) == [] by {
      assert [Other][1..] == [];
    }
    assert Issues(v, a + [Other], comments, opts) == ia by {
      IssuesAppend(v, a, [Other], comments, opts);
      assert ia + [] == ia;
    }
    assert Issues(v, a + [Other] + b, comments, opts) == ia + ib by {
      IssuesAppend(v, a + [Other], b, comments, opts);
    }
    IssuesAppend(v, a, b, comments, opts);
  }

  /** A function yields nothing, under any options, exactly when a comment
      ending on its header line contains `noqa_doc`; otherwise it yields
      the issues of its docstring. */
  lemma SuppressionIff(v: Variant, f: FunctionDef, comments: seq<Comment>, opts: Options)
    ensures NodeIssues(v, Function(f), comments, opts)
         == if exists i :: 0 <= i < |comments| && comments[i].endLine == f.lineno && Contains(comments[i].text, CheckNone)
            then []
            else DocstringIssues(v, f, opts)
  {
    IgnoreThisFunctionIff(f, comments);
  }

  /** A missing or empty docstring yields one NO_DOCSTRING issue when the
      option is on and nothing otherwise; no other check runs. */
  lemma MissingDocstringGate(v: Variant, f: FunctionDef, comments: seq<Comment>, opts: Options)
    requires f.docstring.Missing? && !IgnoreThisFunction(f, comments)
    ensures NodeIssues(v, Function(f), comments, opts)
         == if opts.disallowNoDocstring then [Issue(NoDocstring, f.name, f.lineno)] else []
  {
  }

  /** A docstring the reST parser rejects yields exactly one INVALID_RE_ST
      issue and nothing else, whatever the options. */
  lemma MalformedDocstringGate(v: Variant, f: FunctionDef, comments: seq<Comment>, opts: Options)
    requires f.docstring.Malformed? && !IgnoreThisFunction(f, comments)
    ensures NodeIssues(v, Function(f), comments, opts) == [Issue(InvalidReSt, f.name, f.lineno)]
  {
  }

  /** The positional-parameter set is non-empty iff there is a positional
      parameter; the documented set likewise. */
  lemma ParamSetsNonEmpty(f: FunctionDef, doc: ParsedDocstring)
    ensures |FunctionParams(f)| > 0 <==> f.args != []
    ensures DocstringParams(doc) != {} <==> doc.params != []
  {
    if f.args != [] {
      assert f.args[0] in FunctionParams(f);
    }
    if doc.params != [] {
      assert doc.params[0] in DocstringParams(doc);
    }
  }

  /** NO_DOCSTRING is reported iff the function is not suppressed, has no
      (or an empty) docstring, and the option is on. */
  lemma NoDocstringIff(v: Variant, f: FunctionDef, comments: seq<Comment>, opts: Options)
    ensures IssueOf(NoDocstring, f) in NodeIssues(v, Function(f), comments, opts)
        <==> !IgnoreThisFunction(f, comments) && f.docstring.Missing? && opts.disallowNoDocstring
  {
  }

  /** PARAMS_MISSING is reported iff the function is not suppressed, its
      docstring parses, the option is on, it has a positional parameter and
      the docstring documents none. */
  lemma ParamsMissingIff(v: Variant, f: FunctionDef, comments: seq<Comment>, opts: Options)
    ensures IssueOf(ParamsMissing, f) in NodeIssues(v, Function(f), comments, opts)
        <==> !IgnoreThisFunction(f, comments) && f.docstring.Parsed?
             && opts.disallowNoParams && f.args != [] && f.docstring.doc.params == []
  {
    if f.docstring.Parsed? {
      ParamSetsNonEmpty(f, f.docstring.doc);
    }
  }

  /** PARAMS_MISMATCH is reported iff the function is not suppressed, its
      docstring parses and documents something, and the compared names
      differ from the positional parameter names; the options play no part. */
  lemma ParamsMismatchIff(v: Variant, f: FunctionDef, comments: seq<Comment>, opts: Options)
    ensures IssueOf(ParamsMismatch, f) in NodeIssues(v, Function(f), comments, opts)
        <==> !IgnoreThisFunction(f, comments) && f.docstring.Parsed? && f.docstring.doc.params != []
             && FunctionParams(f) != CleanDocstringParams(v, DocstringParams(f.docstring.doc))
  {
    if f.docstring.Parsed? {
      ParamSetsNonEmpty(f, f.docstring.doc);
    }
  }

  /** NO_RETURN is reported iff the function is not suppressed, its
      docstring parses, the return type is not None-equivalent, no return
      is documented, and parameters or raises are documented or the option
      is on. */
  lemma NoReturnIff(v: Variant, f: FunctionDef, comments: seq<Comment>, opts: Options)
    ensures IssueOf(NoReturn, f) in NodeIssues(v, Function(f), comments, opts)
        <==> !IgnoreThisFunction(f, comments) && f.docstring.Parsed?
             && !IsFunctionReturnTypeNone(f) && !f.docstring.doc.hasReturns
             && (f.docstring.doc.params != [] || f.docstring.doc.hasRaises || opts.disallowNoReturn)
  {
  }

  /** PARAMS_MISSING needs an empty documented set and PARAMS_MISMATCH a
      non-empty one, so one function never gets both. */
  lemma MissingExcludesMismatch(v: Variant, f: FunctionDef, comments: seq<Comment>, opts: Options)
    ensures !(IssueOf(ParamsMissing, f) in NodeIssues(v, Function(f), comments, opts)
              && IssueOf(ParamsMismatch, f) in NodeIssues(v, Function(f), comments, opts))
  {
    ParamsMissingIff(v, f, comments, opts);
    ParamsMismatchIff(v, f, comments, opts);
  }

  /** The position of each check in the order the source runs them. */
  function CheckOrder(k: ErrorKind): nat {
    match k
    case NoDocstring => 0
    case InvalidReSt => 1
    case ParamsMissing => 2
    case ParamsMismatch => 3
    case NoReturn => 4
  }

  /** What one function contributes: at most three issues, at most one
      when its docstring is missing, empty or not valid reST; each on the
      function's line and naming the function; in the order the checks run
      (PARAMS_MISSING, PARAMS_MISMATCH, NO_RETURN), so no kind twice. */
  lemma FunctionIssuesShape(v: Variant, f: FunctionDef, comments: seq<Comment>, opts: Options)
    ensures var xs := NodeIssues(v, Function(f), comments, opts);
      |xs| <= (if f.docstring.Parsed? then 3 else 1)
      && (forall x :: x in xs ==> x.line == f.lineno && x.name == f.name)
      && (forall i, j :: 0 <= i < j < |xs| ==> CheckOrder(xs[i].kind) < CheckOrder(xs[j].kind))
  {
    if !IgnoreThisFunction(f, comments) && f.docstring.Parsed? {
      var doc := f.docstring.doc;
      ThreeChecksShape(f, ParamsMissingFires(f, doc, opts.disallowNoParams),
        ParamsMismatchFires(v, f, doc), NoReturnFires(f, doc, opts.disallowNoReturn));
    }
  }

  lemma ThreeChecksShape(f: FunctionDef, missing: bool, mismatch: bool, noReturn: bool)
    ensures var xs := IssueIf(ParamsMissing, f, missing) + IssueIf(ParamsMismatch, f, mismatch) + IssueIf(NoReturn, f, noReturn);
      |xs| <= 3
      && (forall x :: x in xs ==> x.line == f.lineno && x.name == f.name)
      && (forall i, j :: 0 <= i < j < |xs| ==> CheckOrder(xs[i].kind) < CheckOrder(xs[j].kind))
  {
  }

  /** Some function of `body` sits on line `line` and has name `name`. */
  predicate HasFunctionAt(body: seq<Node>, line: nat, name: string) {
    exists i :: 0 <= i < |body| && body[i].Function? && body[i].def.lineno == line && body[i].def.name == name
  }

  /** Every issue of a module is on the line of a function of its body and
      names that function. */
  lemma {:induction false} IssuesComeFromFunctions(v: Variant, body: seq<Node>, comments: seq<Comment>, opts: Options)
    ensures forall x :: x in Issues(v, body, comments, opts) ==> HasFunctionAt(body, x.line, x.name)
    decreases |body|
  {
    if body != [] {
      IssuesComeFromFunctions(v, body[1..], comments, opts);
      forall x | x in Issues(v, body, comments, opts)
        ensures HasFunctionAt(body, x.line, x.name)
      {
        if x in NodeIssues(v, body[0], comments, opts) {
          FunctionIssuesShape(v, body[0].def, comments, opts);
          assert body[0].def.lineno == x.line && body[0].def.name == x.name;
        } else {
          var i :| 0 <= i < |body[1..]| && body[1..][i].Function? && body[1..][i].def.lineno == x.line
            && body[1..][i].def.name == x.name;
          assert body[i + 1] == body[1..][i];
        }
      }
    }
  }

  /** Options are ordered pointwise: `a <= b` when every option on in `a`
      is on in `b`. */
  predicate OptionsLeq(a: Options, b: Options) {
    (a.disallowNoDocstring ==> b.disallowNoDocstring)
    && (a.disallowNoParams ==> b.disallowNoParams)
    && (a.disallowNoReturn ==> b.disallowNoReturn)
  }

  /** Turning an option on never removes an issue: every issue (with its
      multiplicity) survives. */
  lemma {:induction false} OptionsMonotone(v: Variant, body: seq<Node>, comments: seq<Comment>, a: Options, b: Options)
    requires OptionsLeq(a, b)
    ensures multiset(Issues(v, body, comments, a)) <= multiset(Issues(v, body, comments, b))
    decreases |body|
  {
    if body != [] {
      OptionsMonotone(v, body[1..], comments, a, b);
    }
  }

  lemma RenderAllMembers(v: Variant, xs: seq<Issue>, y: Finding)
    ensures y in RenderAll(v, xs) <==> exists x :: x in xs && Render(v, x) == y
  {
    MapIndex(x => Render(v, x), xs);
    if y in RenderAll(v, xs) {
      var j :| 0 <= j < |xs| && RenderAll(v, xs)[j] == y;
      assert xs[j] in xs;
    }
    if exists x :: x in xs && Render(v, x) == y {
      var x :| x in xs && Render(v, x) == y;
      var j :| 0 <= j < |xs| && xs[j] == x;
      assert RenderAll(v, xs)[j] == y;
    }
  }

  /** Turning an option on never removes a finding. */
  lemma FindingsMonotone(v: Variant, body: seq<Node>, comments: seq<Comment>, a: Options, b: Options, y: Finding)
    requires OptionsLeq(a, b)
    requires y in Findings(v, body, comments, a)
    ensures y in Findings(v, body, comments, b)
  {
    OptionsMonotone(v, body, comments, a, b);
    RenderAllMembers(v, Issues(v, body, comments, a), y);
    RenderAllMembers(v, Issues(v, body, comments, b), y);
    var x :| x in Issues(v, body, comments, a) && Render(v, x) == y;
    assert x in multiset(Issues(v, body, comments, a));
  }

  // ---------------------------------------------------------------------
  // How the two variants treat documented `*args` and `**kwargs`

  /** In the package, documented names starting with `*` are dropped: adding
      any number of them to a docstring that already documents something
      does not change whether PARAMS_MISMATCH fires. */
  lemma PackageIgnoresStarredDocs(f: FunctionDef, doc: ParsedDocstring, starred: seq<string>)
    requires doc.params != []
    requires forall i :: 0 <= i < |starred| ==> StartsWithStar(starred[i])
    ensures ParamsMismatchFires(Package, f, doc.(params := doc.params + starred))
         == ParamsMismatchFires(Package, f, doc)
  {
    var doc' := doc.(params := doc.params + starred);
    assert doc.params[0] in DocstringParams(doc);
    assert doc'.params[0] in DocstringParams(doc');
    assert CleanDocstringParams(Package, DocstringParams(doc')) == CleanDocstringParams(Package, DocstringParams(doc)) by {
      forall p | p in DocstringParams(doc') && !StartsWithStar(p)
        ensures p in DocstringParams(doc)
      {
        var i :| 0 <= i < |doc'.params| && doc'.params[i] == p;
      }
    }
  }

  /** In the entry point, a documented name starting with `*` always makes
      PARAMS_MISMATCH fire, because no positional parameter name (a Python
      identifier) starts with `*`. */
  lemma ScriptFlagsStarredDocs(f: FunctionDef, doc: ParsedDocstring, i: nat)
    requires forall j :: 0 <= j < |f.args| ==> !StartsWithStar(f.args[j])
    requires i < |doc.params| && StartsWithStar(doc.params[i])
    ensures ParamsMismatchFires(Script, f, doc)
  {
    assert doc.params[i] in DocstringParams(doc);
    assert doc.params[i] !in FunctionParams(f);
  }

  /** Without documented names starting with `*`, both variants agree on
      PARAMS_MISMATCH. */
  lemma VariantsAgreeWithoutStarredDocs(f: FunctionDef, doc: ParsedDocstring)
    requires forall i :: 0 <= i < |doc.params| ==> !StartsWithStar(doc.params[i])
    ensures ParamsMismatchFires(Package, f, doc) == ParamsMismatchFires(Script, f, doc)
  {
    assert CleanDocstringParams(Package, DocstringParams(doc)) == DocstringParams(doc);
  }
}
