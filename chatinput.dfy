/** The message box of components/ChatInput.tsx: a draft the user edits, and a
    send rule that emits the trimmed draft only when it is not blank. */
module ChatInput {
  import opened Text

  /** The text field's `maxLength`. */
  const MaxLength: nat := 500

  /** What `handleSend` passes to `onSendMessage` for a draft, if anything:
      the trimmed draft, and nothing when the draft is blank. */
  function Outgoing(draft: string): (r: Option<string>)
    ensures r.Some? <==> !IsBlank(draft)
    ensures r.Some? ==> r.value != []
  {
    TrimEmptyIffBlank(draft);
    var t := Trim(draft);
    if t != [] then Some(t) else None
  }

  /** The sent text has no whitespace at either end, and trimming it again
      changes nothing. */
  lemma OutgoingIsTrimmed(draft: string)
    requires Outgoing(draft).Some?
    ensures var t := Outgoing(draft).value;
      !IsWhitespace(t[0]) && !IsWhitespace(t[|t| - 1]) && Trim(t) == t
  {
    var t := Trim(draft);
    TrimIdempotent(draft);
    assert Outgoing(draft) == Some(t);
  }

  /** The sent text is a slice of the draft with only whitespace cut away. */
  lemma OutgoingIsCore(draft: string)
    requires Outgoing(draft).Some?
    ensures Outgoing(draft).value == draft[TrimFrom(draft)..TrimTo(draft)]
    ensures IsBlank(draft[..TrimFrom(draft)]) && IsBlank(draft[TrimTo(draft)..])
  {
    TrimIsCore(draft);
  }

  /** Sending is idempotent on its output: a draft holding exactly what was
      sent would send the same text again. */
  lemma OutgoingStable(draft: string)
    requires Outgoing(draft).Some?
    ensures Outgoing(Outgoing(draft).value) == Outgoing(draft)
  {
    OutgoingIsTrimmed(draft);
  }

  /** The send button's `disabled` prop is false exactly when the draft is not
      blank and the whole input is not disabled. */
  function SendEnabled(draft: string, disabled: bool): (r: bool)
    ensures r <==> Outgoing(draft).Some? && !disabled
  {
    TrimEmptyIffBlank(draft);
    !(Trim(draft) == [] || disabled)
  }

  /** The send button is green when pressing it would send something. */
  function SendButtonColor(draft: string): (r: string)
    ensures r == "bg-green-500" <==> Outgoing(draft).Some?
    ensures r == "bg-gray-300" <==> Outgoing(draft).None?
  {
    TrimEmptyIffBlank(draft);
    if Trim(draft) != [] then "bg-green-500" else "bg-gray-300"
  }

  /** What the text field lets through: nothing while the input is disabled
      (`editable={!disabled}`), and at most `MaxLength` characters. */
  function Edited(current: string, typed: string, disabled: bool): (r: string)
    ensures !disabled ==> |r| <= MaxLength
    ensures disabled ==> r == current
    ensures !disabled ==> r <= typed && (|typed| <= MaxLength ==> r == typed)
  {
    if disabled then current
    else if |typed| <= MaxLength then typed
    else typed[..MaxLength]
  }

  /** The component's `message` state. */
  class Draft {
    var message: string

    ghost predicate Valid()
      reads this
    {
      |message| <= MaxLength
    }

    constructor ()
      ensures Valid() && message == ""
    {
      message := "";
    }

    /** `onChangeText={setMessage}` on the bounded, possibly read-only field. */
    method ChangeText(typed: string, disabled: bool)
      requires Valid()
      modifies this
      ensures Valid()
      ensures message == Edited(old(message), typed, disabled)
    {
      message := Edited(message, typed, disabled);
    }

    /** `handleSend`: emit the trimmed draft and clear it, or do nothing when
        the draft is blank. */
    method Send() returns (sent: Option<string>)
      requires Valid()
      modifies this
      ensures Valid()
      ensures sent == Outgoing(old(message))
      ensures message == (if sent.Some? then "" else old(message))
    {
      sent := Outgoing(message);
      if sent.Some? {
        message := "";
      }
    }
  }

  /** Pressing send twice in a row emits at most once: the second press finds
      an empty draft. */
  method SendTwice(typed: string) returns (first: Option<string>, second: Option<string>)
    ensures first == Outgoing(if |typed| <= MaxLength then typed else typed[..MaxLength])
    ensures second == None
  {
    var d := new Draft();
    d.ChangeText(typed, false);
    first := d.Send();
    second := d.Send();
  }
}
