/** The error catalog of the command-line entry point: the same five kinds,
    whose templates end with a period after the placeholder. */
module ScriptErrors {
  import opened Wrappers
  import DocstringErrors

  type ErrorKind = DocstringErrors.ErrorKind

  /** The value of each enum member of the entry point's `DocstringError`. */
  function Template(k: ErrorKind): string {
    DocstringErrors.Prefix(k) + "{}."
  }

  /** `_get_docstring_error_message`: the kind's template filled with the name. */
  function GetDocstringErrorMessage(k: ErrorKind, name: string): (m: string)
    ensures m == DocstringErrors.Prefix(k) + name + "."
    ensures m != [] && m[|m| - 1] == '.'
  {
    DocstringErrors.PrefixHasNoBrace(k);
    DocstringErrors.FormatFillsPlaceholder(DocstringErrors.Prefix(k), ".", name);
    assert Template(k) == DocstringErrors.Prefix(k) + "{}" + ".";
    DocstringErrors.Format(Template(k), name)
  }

  /** Reads a message back into its kind and function name: the inverse of
      `GetDocstringErrorMessage`. */
  function ParseMessage(m: string): Option<(ErrorKind, string)> {
    if m != [] && m[|m| - 1] == '.' then DocstringErrors.ParseMessage(m[..|m| - 1]) else None
  }

  /** Round trip: parsing a formatted message gives back its kind and name. */
  lemma ParseMessageRoundTrip(k: ErrorKind, name: string)
    ensures ParseMessage(GetDocstringErrorMessage(k, name)) == Some((k, name))
  {
    var m := GetDocstringErrorMessage(k, name);
    assert m[..|m| - 1] == DocstringErrors.GetDocstringErrorMessage(k, name);
    DocstringErrors.ParseMessageRoundTrip(k, name);
  }

  /** Round trip the other way: whatever parses is the message of what it parses to. */
  lemma ParseMessageSound(m: string)
    requires ParseMessage(m).Some?
    ensures GetDocstringErrorMessage(ParseMessage(m).value.0, ParseMessage(m).value.1) == m
  {
    var init := m[..|m| - 1];
    var r := DocstringErrors.ParseMessage(init).value;
    PeriodAfterSoundMessage(init);
    EndsWithPeriod(m);
  }

  lemma PeriodAfterSoundMessage(init: string)
    requires DocstringErrors.ParseMessage(init).Some?
    ensures var r := DocstringErrors.ParseMessage(init).value;
      GetDocstringErrorMessage(r.0, r.1) == init + "."
  {
    var r := DocstringErrors.ParseMessage(init).value;
    DocstringErrors.ParseMessageSound(init);
    AddsPeriodToPackageMessage(r.0, r.1);
  }

  lemma EndsWithPeriod(m: string)
    requires m != [] && m[|m| - 1] == '.'
    ensures m == m[..|m| - 1] + "."
  {
  }

  /** The entry point's message is the package's message with a period added. */
  lemma AddsPeriodToPackageMessage(k: ErrorKind, name: string)
    ensures GetDocstringErrorMessage(k, name) == DocstringErrors.GetDocstringErrorMessage(k, name) + "."
  {
  }
}
