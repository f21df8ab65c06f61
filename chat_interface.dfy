/** The message box of src/components/ChatInterface.tsx: a draft `message` that
    the input field edits, and the submit handler that sends it. */
module ChatInput {
  import opened Common

  /** White space as `trim` removes it (the ASCII part of JavaScript's set). */
  predicate IsSpace(c: char) {
    c == ' ' || c == '\t' || c == '\n' || c == '\r' || c == '\U{000B}' || c == '\U{000C}'
  }

  /** `s` with its leading white space removed. */
  function TrimStart(s: string): (r: string)
    ensures |r| <= |s| && r == s[|s| - |r|..]
    ensures forall i :: 0 <= i < |s| - |r| ==> IsSpace(s[i])
    ensures r != [] ==> !IsSpace(r[0])
  {
    if s != [] && IsSpace(s[0]) then TrimStart(s[1..]) else s
  }

  /** `s` with its trailing white space removed. */
  function TrimEnd(s: string): (r: string)
    ensures |r| <= |s| && r == s[..|r|]
    ensures forall i :: |r| <= i < |s| ==> IsSpace(s[i])
    ensures r != [] ==> !IsSpace(r[|r| - 1])
  {
    if s != [] && IsSpace(s[|s| - 1]) then TrimEnd(s[..|s| - 1]) else s
  }

  /** `String.prototype.trim`: what is left is a stretch of `s` that neither
      starts nor ends with white space. */
  function Trim(s: string): (r: string)
    ensures r <= TrimStart(s) && |r| <= |s|
    ensures r != [] ==> !IsSpace(r[0]) && !IsSpace(r[|r| - 1])
  {
    TrimEnd(TrimStart(s))
  }

  /** The trimmed draft is empty exactly when every character is white space. */
  lemma TrimEmptyIffBlank(s: string)
    ensures Trim(s) == [] <==> forall i :: 0 <= i < |s| ==> IsSpace(s[i])
  {
  }

  /** The guard of `handleSubmit`: `message.trim() && !disabled`. */
  predicate Accepts(draft: string, disabled: bool)
    ensures Accepts(draft, disabled) ==> !disabled && |draft| > 0
  {
    Trim(draft) != [] && !disabled
  }

  /** A draft is sent exactly when input is enabled and it has a character that
      is not white space. */
  lemma AcceptsIff(draft: string, disabled: bool)
    ensures Accepts(draft, disabled) <==> !disabled && exists i :: 0 <= i < |draft| && !IsSpace(draft[i])
  {
  }

  class ChatInterface {
    /** The draft in the text field. */
    var message: string
    /** The `disabled` prop (false unless the parent passes it). */
    const disabled: bool

    constructor (disabled: bool)
      ensures message == "" && this.disabled == disabled
    {
      message := "";
      this.disabled := disabled;
    }

    /** The component as mounted without a `disabled` prop. */
    constructor WithDefaults()
      ensures message == "" && !disabled
    {
      message := "";
      disabled := false;
    }

    /** The input's `onChange`: the draft becomes the field's value. */
    method Edit(value: string)
      modifies this
      ensures message == value
    {
      message := value;
    }

    /** `handleSubmit`: `sent` is the argument `onSendMessage` is called with,
        `None` when it is not called. An accepted draft is sent untrimmed, once,
        and then cleared; a refused one stays in the field. */
    method HandleSubmit() returns (sent: Option<string>)
      modifies this
      ensures sent.Some? <==> Accepts(old(message), disabled)
      ensures sent.Some? ==> sent.value == old(message) && message == ""
      ensures sent.None? ==> message == old(message)
    {
      if Trim(message) != [] && !disabled {
        sent := Some(message);
        message := "";
      } else {
        sent := None;
      }
    }
  }
}
