/** The checker's inputs, as the loader and the reST parser hand them over:
    the module body, the comment tokens and the three checking options. */
module Syntax {
  import opened Wrappers

  /** A function's return annotation (`node.returns`). A `Constant` carries the
      constant's `kind` field: `None` for most constants, `Some("u")` for a
      `u"..."` string. */
  datatype Annotation = NoAnnotation | Constant(kind: Option<string>) | OtherAnnotation

  /** What the reST parser returned for a docstring: the `arg_name` of every
      documented parameter, in order, and whether a return and any raises
      section are present. */
  datatype ParsedDocstring = ParsedDocstring(params: seq<string>, hasReturns: bool, hasRaises: bool)

  /** A function's docstring: absent or empty (`ast.get_docstring` is falsy),
      rejected by the reST parser, or parsed. */
  datatype Docstring = Missing | Malformed | Parsed(doc: ParsedDocstring)

  /** A module-level `def`: its name, header line, the names in
      `node.args.args` (the positional parameters only), its return
      annotation and its docstring. */
  datatype FunctionDef = FunctionDef(
    name: string,
    lineno: nat,
    args: seq<string>,
    annotation: Annotation,
    docstring: Docstring)

  /** One statement of the module body. Everything that is not an
      `ast.FunctionDef` (classes, `async def`, assignments, ...) is `Other`. */
  datatype Node = Function(def: FunctionDef) | Other

  /** A comment token: its text and the line on which it ends. */
  datatype Comment = Comment(text: string, endLine: nat)

  /** What the loader produces for one file. */
  datatype Module = Module(body: seq<Node>, comments: seq<Comment>)

  /** The three options of `check_docstrings`. */
  datatype Options = Options(disallowNoDocstring: bool, disallowNoParams: bool, disallowNoReturn: bool)
}
