/** The prompt form: a text area whose contents are forwarded, trimmed, to the
    page's `onSubmit` when they are not blank and no generation is loading. */
module GenerationForm {
  import opened Seqs

  /** The characters `String.prototype.trim` strips: ECMAScript's WhiteSpace
      (tab, vertical tab, form feed, space, no-break space, the byte-order mark
      and the other space separators) and its LineTerminators. */
  predicate IsWhitespace(c: char)
    // digits and Latin letters are never stripped
    ensures IsWhitespace(c) ==> !('0' <= c <= '9') && !('a' <= c <= 'z') && !('A' <= c <= 'Z')
  {
    || c == '\t' || c == '\n' || c == '\U{000B}' || c == '\U{000C}' || c == '\r'
    || c == ' ' || c == '\U{00A0}' || c == '\U{1680}'
    || ('\U{2000}' <= c <= '\U{200A}')
    || c == '\U{2028}' || c == '\U{2029}' || c == '\U{202F}' || c == '\U{205F}'
    || c == '\U{3000}' || c == '\U{FEFF}'
  }

  predicate IsBlank(s: string) {
    forall i :: 0 <= i < |s| ==> IsWhitespace(s[i])
  }

  /** The number of whitespace characters `s` starts with. */
  function LeadingWhitespace(s: string): (n: nat)
    ensures n <= |s|
    ensures forall i :: 0 <= i < n ==> IsWhitespace(s[i])
    ensures n < |s| ==> !IsWhitespace(s[n])
  {
    if s != [] && IsWhitespace(s[0]) then 1 + LeadingWhitespace(s[1..]) else 0
  }

  /** The number of whitespace characters `s` ends with. */
  function TrailingWhitespace(s: string): (n: nat)
    ensures n <= |s|
    ensures forall i :: |s| - n <= i < |s| ==> IsWhitespace(s[i])
    ensures n < |s| ==> !IsWhitespace(s[|s| - 1 - n])
  {
    if s != [] && IsWhitespace(s[|s| - 1]) then 1 + TrailingWhitespace(s[..|s| - 1]) else 0
  }

  /** `s.trim()`: `s` without its leading and trailing whitespace. */
  function Trim(s: string): (r: string)
    // the result is the piece of `s` left between whitespace-only borders
    ensures LeadingWhitespace(s) + |r| <= |s|
    ensures r == s[LeadingWhitespace(s)..LeadingWhitespace(s) + |r|]
    ensures IsBlank(s[..LeadingWhitespace(s)]) && IsBlank(s[LeadingWhitespace(s) + |r|..])
    // and it neither starts nor ends with whitespace
    ensures r != [] ==> !IsWhitespace(r[0]) && !IsWhitespace(r[|r| - 1])
    // it is empty exactly when `s` is blank
    ensures r == [] <==> IsBlank(s)
  {
    var lead := LeadingWhitespace(s);
    if lead == |s| then []
    else
      var trail := TrailingWhitespace(s);
      s[lead..|s| - trail]
  }

  /** Trimming twice is trimming once. */
  lemma TrimIdempotent(s: string)
    ensures Trim(Trim(s)) == Trim(s)
  {
  }

  /** The form's state: the text area's contents. Whether a generation is
      loading is the parent's, passed in as `isLoading`. */
  class Form {
    var prompt: string

    constructor ()
      ensures prompt == ""
    {
      prompt := "";
    }

    /** The text area's change handler. */
    method HandleChange(value: string)
      modifies this
      ensures prompt == value
    {
      prompt := value;
    }

    /** Whether the submit button is disabled: the prompt is blank or a
        generation is loading. */
    predicate SubmitDisabled(isLoading: bool)
      reads this
      ensures SubmitDisabled(isLoading) <==> isLoading || IsBlank(prompt)
    {
      Trim(prompt) == [] || isLoading
    }

    /** The submit handler; the result is the argument `onSubmit` is called
        with, or `None` when it is not called. The prompt is left as it is. */
    method HandleSubmit(isLoading: bool) returns (submitted: Option<string>)
      // called exactly when the button would be enabled
      ensures submitted.Some? <==> !isLoading && !IsBlank(prompt)
      ensures submitted.Some? <==> !SubmitDisabled(isLoading)
      // with the trimmed prompt, which is non-empty and has nothing left to trim
      ensures submitted.Some? ==>
        && submitted.value == Trim(prompt)
        && submitted.value != []
        && !IsWhitespace(submitted.value[0]) && !IsWhitespace(submitted.value[|submitted.value| - 1])
        && Trim(submitted.value) == submitted.value
    {
      var trimmed := Trim(prompt);
      if trimmed != [] && !isLoading {
        TrimIdempotent(prompt);
        submitted := Some(trimmed);
      } else {
        submitted := None;
      }
    }
  }
}
