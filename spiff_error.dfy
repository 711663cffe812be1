/**
 * The error a spiff template execution reports
 * (pkg/landscaper/installations/executions/template/spiff/error.go): it
 * wraps the templating error and, when an input formatter is attached,
 * appends the formatted template input. `Error()` builds the message at
 * most once and caches it; `FormatError` rebuilds it on every call.
 *
 * The wrapped error is represented by the text of its Error(); the input
 * formatter by its Format function. Neither is part of this model.
 */
module Spiff {
  import opened Wrappers

  /** The template input formatter, through its Format(prefix, prettyPrint, sensitiveKeys...). */
  datatype InputFormatter = InputFormatter(format: (string, bool, seq<string>) -> string)

  /** The line that separates the error from the formatted input. */
  const InputHeader := "\ntemplate input:\n"

  /** The prefix every line of the formatted input gets. */
  const InputIndent := "\t"

  /** The keys Error() hides when it formats the message itself. */
  const DefaultSensitiveKeys := ["imports", "values", "state"]

  /**
   * The message for an error text: the text alone without a formatter,
   * otherwise followed by the header and the formatted input.
   */
  function ComposeMessage(errText: string, formatter: Option<InputFormatter>, prettyPrint: bool, sensitiveKeys: seq<string>): (m: string)
    ensures errText <= m
    ensures m == errText <==> formatter.None?
    ensures formatter.Some? ==>
      m[|errText|..] == InputHeader + formatter.value.format(InputIndent, prettyPrint, sensitiveKeys)
  {
    if formatter.None? then errText
    else errText + InputHeader + formatter.value.format(InputIndent, prettyPrint, sensitiveKeys)
  }

  /** The fields of a TemplateError: the wrapped error, the formatter, the cached message. */
  datatype ErrorState = ErrorState(err: string, formatter: Option<InputFormatter>, message: Option<string>)

  /** TemplateErrorBuilder: an error with nothing attached and nothing cached. */
  function Built(err: string): (st: ErrorState)
    ensures st.err == err && st.formatter.None? && st.message.None?
  {
    ErrorState(err, None, None)
  }

  /** WithInputFormatter: only the formatter changes. */
  function WithFormatter(st: ErrorState, formatter: Option<InputFormatter>): (st': ErrorState)
    ensures st'.formatter == formatter
    ensures st'.err == st.err && st'.message == st.message
  {
    st.(formatter := formatter)
  }

  /** FormatError: the cache holds the composed message, whatever it held before. */
  function Formatted(st: ErrorState, prettyPrint: bool, sensitiveKeys: seq<string>): (st': ErrorState)
    ensures st'.message.Some? && st.err <= st'.message.value
    ensures st'.message.value == ComposeMessage(st.err, st.formatter, prettyPrint, sensitiveKeys)
    ensures st'.err == st.err && st'.formatter == st.formatter
  {
    st.(message := Some(ComposeMessage(st.err, st.formatter, prettyPrint, sensitiveKeys)))
  }

  /**
   * Error(): the cached message if there is one; otherwise the message
   * formatted without pretty printing and with the default sensitive keys,
   * which is then cached.
   */
  function ErrorText(st: ErrorState): (r: (string, ErrorState))
    ensures r.1.message == Some(r.0)
    ensures st.message.Some? ==> r == (st.message.value, st)
    ensures st.message.None? ==> r.1 == Formatted(st, false, DefaultSensitiveKeys)
    ensures st.message.None? ==> st.err <= r.0
  {
    if st.message.Some? then (st.message.value, st)
    else
      var st' := Formatted(st, false, DefaultSensitiveKeys);
      (st'.message.value, st')
  }

  /** A second Error() returns the same text and changes nothing. */
  lemma ErrorTextStable(st: ErrorState)
    ensures ErrorText(ErrorText(st).1) == ErrorText(st)
  {
  }

  /** A formatter attached after the message is cached does not change the text. */
  lemma CachedIgnoresLateFormatter(st: ErrorState, formatter: Option<InputFormatter>)
    ensures ErrorText(WithFormatter(ErrorText(st).1, formatter)).0 == ErrorText(st).0
  {
  }

  /** FormatError replaces whatever the cache held: the last call decides. */
  lemma FormattedOverwrites(st: ErrorState, p1: bool, k1: seq<string>, p2: bool, k2: seq<string>)
    ensures Formatted(Formatted(st, p1, k1), p2, k2) == Formatted(st, p2, k2)
  {
  }

  /** A TemplateError, updated in place. */
  class TemplateError {
    const err: string
    var inputFormatter: Option<InputFormatter>
    var message: Option<string>

    function State(): ErrorState
      reads this
    {
      ErrorState(err, inputFormatter, message)
    }

    /** A cached message always starts with the wrapped error's text. */
    ghost predicate Valid()
      reads this
    {
      message.Some? ==> err <= message.value
    }

    constructor TemplateErrorBuilder(err: string)
      ensures Valid() && State() == Built(err)
    {
      this.err := err;
      this.inputFormatter := None;
      this.message := None;
    }

    method WithInputFormatter(inputFormatter: Option<InputFormatter>) returns (e: TemplateError)
      requires Valid()
      modifies this`inputFormatter
      ensures Valid() && e == this
      ensures State() == WithFormatter(old(State()), inputFormatter)
    {
      this.inputFormatter := inputFormatter;
      return this;
    }

    /** Builds the message step by step and caches it. */
    method FormatError(prettyPrint: bool, sensitiveKeys: seq<string>)
      modifies this`message
      ensures Valid()
      ensures State() == Formatted(old(State()), prettyPrint, sensitiveKeys)
    {
      var builder := "";
      builder := builder + err;
      assert builder == err;
      if inputFormatter.Some? {
        builder := builder + InputHeader;
        builder := builder + inputFormatter.value.format(InputIndent, prettyPrint, sensitiveKeys);
      }
      message := Some(builder);
    }

    method Error() returns (s: string)
      requires Valid()
      modifies this`message
      ensures Valid() && err <= s
      ensures (s, State()) == ErrorText(old(State()))
    {
      if message.None? {
        FormatError(false, DefaultSensitiveKeys);
      }
      s := message.value;
    }
  }

  /** Two Error() calls, with a formatter attached between them, give one text. */
  method RepeatedError(e: TemplateError, formatter: Option<InputFormatter>) returns (first: string, second: string)
    requires e.Valid()
    modifies e
    ensures first == second
    ensures old(e.message).Some? ==> first == old(e.message).value
    ensures e.err <= first
  {
    first := e.Error();
    var same := e.WithInputFormatter(formatter);
    second := same.Error();
  }
}
