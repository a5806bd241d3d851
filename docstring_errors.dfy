/** The error catalog of the package: five error kinds, each with a message
    template holding one `{}` placeholder for the function name. */
module DocstringErrors {
  import opened Wrappers

  datatype ErrorKind = InvalidReSt | NoDocstring | NoReturn | ParamsMismatch | ParamsMissing

  /** The words that open each kind's template; every template goes on
      with `" in function {}"`. The PARAMS_MISMATCH text is one literal in
      the catalog; it is written here as two shorter literals, which keeps
      the proofs about the longest text cheap for the verifier. */
  function Subject(k: ErrorKind): string {
    match k
    case InvalidReSt => "Docstring is not valid reST"
    case NoDocstring => "No docstring found"
    case NoReturn => "No return docstring found"
    case ParamsMismatch => "Docstring params do not" + " match function params"
    case ParamsMissing => "Docstring params are missing"
  }

  /** The text of each kind's template before its placeholder. The same five
      texts open the templates of the command-line catalog. */
  function Prefix(k: ErrorKind): string {
    Subject(k) + " in function "
  }

  /** No prefix holds a `{`, so a template's only replacement field is its
      final `{}`. */
  lemma PrefixHasNoBrace(k: ErrorKind)
    ensures '{' !in Prefix(k)
  {
    SubjectHasNoBrace(k);
    assert '{' !in " in function ";
    NoBraceAppend(Subject(k), " in function ");
  }

  lemma SubjectHasNoBrace(k: ErrorKind)
    ensures '{' !in Subject(k)
  {
    match k
    case InvalidReSt => assert '{' !in "Docstring is not valid reST";
    case NoDocstring => assert '{' !in "No docstring found";
    case NoReturn => assert '{' !in "No return docstring found";
    case ParamsMismatch =>
      assert '{' !in "Docstring params do not";
      assert '{' !in " match function params";
      NoBraceAppend("Docstring params do not", " match function params");
    case ParamsMissing => assert '{' !in "Docstring params are missing";
  }

  lemma NoBraceAppend(a: string, b: string)
    requires '{' !in a && '{' !in b
    ensures '{' !in a + b
  {
  }

  /** The value of each enum member: the prefix, then the placeholder, with
      no trailing period. */
  function Template(k: ErrorKind): string {
    Prefix(k) + "{}"
  }

  /** Python's `template.format(arg)` for a template whose one replacement
      field is `{}`: the first `{}` is replaced by `arg`, inserted verbatim. */
  function Format(template: string, arg: string): string
    decreases |template|
  {
    if |template| < 2 then template
    else if template[0] == '{' && template[1] == '}' then arg + template[2..]
    else [template[0]] + Format(template[1..], arg)
  }

  /** Formatting a template `p + "{}" + s` puts `arg` exactly where the
      placeholder was, whatever characters `arg` holds. */
  lemma {:induction false} FormatFillsPlaceholder(p: string, s: string, arg: string)
    requires '{' !in p
    ensures Format(p + "{}" + s, arg) == p + arg + s
  {
    if p == [] {
      assert p + "{}" + s == "{}" + s;
    } else {
      FormatFillsPlaceholder(p[1..], s, arg);
      assert (p + "{}" + s)[1..] == p[1..] + "{}" + s;
    }
  }

  /** `get_docstring_error_message`: the kind's template filled with the name. */
  function GetDocstringErrorMessage(k: ErrorKind, name: string): (m: string)
    ensures m == Prefix(k) + name
  {
    PrefixHasNoBrace(k);
    FormatFillsPlaceholder(Prefix(k), "", name);
    assert Template(k) == Prefix(k) + "{}" + "";
    assert Prefix(k) + name + "" == Prefix(k) + name;
    Format(Template(k), name)
  }

  /** Every kind, in the enum's declaration order. */
  const AllKinds: seq<ErrorKind> := [InvalidReSt, NoDocstring, NoReturn, ParamsMismatch, ParamsMissing]

  function MatchPrefix(m: string, ks: seq<ErrorKind>): Option<(ErrorKind, string)>
    decreases |ks|
  {
    if ks == [] then None
    else if Prefix(ks[0]) <= m then Some((ks[0], m[|Prefix(ks[0])|..]))
    else MatchPrefix(m, ks[1..])
  }

  /** Reads a message back into its kind and function name: the inverse of
      `GetDocstringErrorMessage`. */
  function ParseMessage(m: string): Option<(ErrorKind, string)> {
    MatchPrefix(m, AllKinds)
  }

  /** Two distinct kinds' prefixes differ at a position both have, so
      neither prefix opens a message of the other kind. */
  lemma PrefixesIncomparable(j: ErrorKind, k: ErrorKind, name: string)
    requires j != k
    ensures !(Prefix(j) <= Prefix(k) + name)
  {
    var m := Prefix(k) + name;
    var i :=
      if Prefix(j)[0] != Prefix(k)[0] then 0
      else if Prefix(j)[3] != Prefix(k)[3] then 3
      else if Prefix(j)[10] != Prefix(k)[10] then 10
      else 17;
    assert Prefix(j)[i] != Prefix(k)[i];
    assert m[i] == Prefix(k)[i];
  }

  lemma {:induction false} MatchPrefixFinds(ks: seq<ErrorKind>, k: ErrorKind, name: string)
    requires k in ks
    ensures MatchPrefix(Prefix(k) + name, ks) == Some((k, name))
    decreases |ks|
  {
    var m := Prefix(k) + name;
    if ks[0] == k {
      assert m[|Prefix(k)|..] == name;
    } else {
      PrefixesIncomparable(ks[0], k, name);
      MatchPrefixFinds(ks[1..], k, name);
    }
  }

  lemma {:induction false} MatchPrefixSound(m: string, ks: seq<ErrorKind>)
    requires MatchPrefix(m, ks).Some?
    ensures var (k, name) := MatchPrefix(m, ks).value; m == Prefix(k) + name
    decreases |ks|
  {
    if !(Prefix(ks[0]) <= m) {
      MatchPrefixSound(m, ks[1..]);
    }
  }

  /** Round trip: parsing a formatted message gives back its kind and name. */
  lemma ParseMessageRoundTrip(k: ErrorKind, name: string)
    ensures ParseMessage(GetDocstringErrorMessage(k, name)) == Some((k, name))
  {
    MatchPrefixFinds(AllKinds, k, name);
  }

  /** Round trip the other way: whatever parses is the message of what it parses to. */
  lemma ParseMessageSound(m: string)
    requires ParseMessage(m).Some?
    ensures GetDocstringErrorMessage(ParseMessage(m).value.0, ParseMessage(m).value.1) == m
  {
    MatchPrefixSound(m, AllKinds);
  }

  /** A message determines both the kind and the name it was made from. */
  lemma MessageInjective(j: ErrorKind, k: ErrorKind, a: string, b: string)
    requires GetDocstringErrorMessage(j, a) == GetDocstringErrorMessage(k, b)
    ensures j == k && a == b
  {
    ParseMessageRoundTrip(j, a);
    ParseMessageRoundTrip(k, b);
  }
}
